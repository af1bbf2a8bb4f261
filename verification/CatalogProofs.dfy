/** The catalog in every reachable state: what every transaction keeps, and what becomes of a
    content's chunk ids. */
module CatalogProofs {
  import opened Bytes
  import opened Text
  import opened Domain
  import opened Catalog

  // ---------------------------------------------------------------------------------------
  // Steps

  /** The committed transactions, with the calls the pipeline makes: chunks are stored as chunked,
      or cleared as failed. */
  datatype Op =
    | Upsert(docs: seq<Document>, now: int)
    | Drop(paths: set<Path>)
    | StoreChunked(hash: Hash, versions: Versions, chunks: seq<Chunk>, now: int)
    | StoreFailed(hash: Hash, versions: Versions, now: int)
    | SetIndexed(hash: Hash, now: int)
    | MarkFailed(hash: Hash, now: int)
    | Reschedule(hash: Hash, attempts: int, at: int, now: int)
    | ResetStale(current: Versions)
    | Ensure(want: Descriptor)
    | Vectors(ids: seq<nat>, vecs: seq<Vector>)
    | Sweep(scope: Scope, batch: set<Str>)

  ghost predicate Step(t: Tables, op: Op, after: Tables) {
    match op
    case Upsert(docs, now) => after == UpsertAll(t, docs, now)
    case Drop(paths) => after == DropDocuments(t, paths)
    case StoreChunked(h, versions, chunks, now) => after == StoreChunksSpec(t, h, Chunked, versions, chunks, now)
    case StoreFailed(h, versions, now) => after == StoreChunksSpec(t, h, Failed, versions, [], now)
    case SetIndexed(h, now) => after == SetStateSpec(t, h, Indexed, now)
    case MarkFailed(h, now) => after == MarkFailedSpec(t, h, now)
    case Reschedule(h, attempts, at, now) => after == RescheduleSpec(t, h, attempts, at, now)
    case ResetStale(current) => after == ResetStaleSpec(t, current)
    case Ensure(want) => Ensured(t, want, after)
    case Vectors(ids, vecs) => after == UpsertVectorsSpec(t, ids, vecs)
    case Sweep(scope, batch) => after == SweepTx(t, scope, batch)
  }

  /** states[0] leads to the last of states by the given transactions. */
  ghost predicate Run(states: seq<Tables>, ops: seq<Op>) {
    |states| == |ops| + 1 && forall i :: 0 <= i < |ops| ==> Step(states[i], ops[i], states[i + 1])
  }

  // ---------------------------------------------------------------------------------------
  // The invariant holds in every reachable state

  lemma UpsertOneKeeps(t: Tables, doc: Document, now: int)
    requires Inv(t)
    ensures Inv(UpsertOne(t, doc, now))
  {
  }

  lemma {:induction false} UpsertAllKeeps(t: Tables, docs: seq<Document>, now: int)
    requires Inv(t)
    ensures Inv(UpsertAll(t, docs, now))
    decreases |docs|
  {
    if docs != [] {
      UpsertAllKeeps(t, docs[..|docs| - 1], now);
      UpsertOneKeeps(UpsertAll(t, docs[..|docs| - 1], now), docs[|docs| - 1], now);
    }
  }

  lemma StripKeeps(t: Tables, h: Hash)
    requires DocumentsResolve(t) && ChunksResolve(t) && OrdinalsUnique(t) && VectorsLive(t) && IdentitiesUnique(t)
    requires forall id :: id in t.chunks && t.chunks[id].hash != h && t.chunks[id].hash in t.content ==>
               !t.content[t.chunks[id].hash].state.Failed?
    requires t.current.Some? ==> t.current.value in t.gens
    ensures Inv(Strip(t, h)) && ChunkIds(Strip(t, h), h) == {}
  {
  }

  /** The chunk table after an insert, row by row. */
  lemma InsertedRows(t: Tables, h: Hash, chunks: seq<Chunk>)
    requires forall id :: id in t.chunks ==> id < t.nextId
    ensures var after := InsertChunks(t, h, chunks);
            && after == t.(chunks := after.chunks, nextId := t.nextId + |chunks|)
            && (forall id :: id in after.chunks <==> id in t.chunks || t.nextId <= id < t.nextId + |chunks|)
            && (forall id :: id in t.chunks ==> after.chunks[id] == t.chunks[id])
            && (forall id :: t.nextId <= id < t.nextId + |chunks| ==> after.chunks[id] == ChunkRow(h, chunks[id - t.nextId]))
  {
  }

  lemma InsertKeepsOrdinals(t: Tables, h: Hash, chunks: seq<Chunk>)
    requires OrdinalsUnique(t) && ChunkIds(t, h) == {} && DistinctOrdinals(chunks)
    requires forall id :: id in t.chunks ==> id < t.nextId
    ensures OrdinalsUnique(InsertChunks(t, h, chunks))
  {
    InsertedRows(t, h, chunks);
    hide InsertChunks;
    assert forall id :: id in t.chunks ==> (id in ChunkIds(t, h) <==> t.chunks[id].hash == h);
    var after := InsertChunks(t, h, chunks);
    forall a, b | a in after.chunks && b in after.chunks && after.chunks[a].hash == after.chunks[b].hash
                  && after.chunks[a].chunk.ordinal == after.chunks[b].chunk.ordinal
      ensures a == b
    {
      if a in t.chunks && b in t.chunks {
        assert t.chunks[a].hash == t.chunks[b].hash;
      }
    }
  }

  lemma InsertKeeps(t: Tables, h: Hash, chunks: seq<Chunk>)
    requires Inv(t) && h in t.content && ChunkIds(t, h) == {}
    requires DistinctOrdinals(chunks)
    requires chunks != [] ==> !t.content[h].state.Failed?
    ensures Inv(InsertChunks(t, h, chunks))
  {
    InsertKeepsOrdinals(t, h, chunks);
    InsertedRows(t, h, chunks);
    hide InsertChunks, OrdinalsUnique, IdentitiesUnique, DistinctOrdinals, ChunkIds, VectorsLive;
    MoreChunksLive(t, InsertChunks(t, h, chunks));
    SameIdentities(t, InsertChunks(t, h, chunks));
  }

  lemma MoreChunksLive(t: Tables, after: Tables)
    requires VectorsLive(t) && after.gens == t.gens && t.chunks.Keys <= after.chunks.Keys
    ensures VectorsLive(after)
  {
    forall g, id {:trigger id in after.gens[g].vecs} | g in after.gens && id in after.gens[g].vecs
      ensures id in after.chunks && |after.gens[g].vecs[id]| == after.gens[g].desc.dims
    {
      LiveVector(t, g, id);
    }
  }

  lemma SameIdentities(t: Tables, after: Tables)
    requires IdentitiesUnique(t) && after.gens == t.gens
    ensures IdentitiesUnique(after)
  {
    hide Descriptor.Identity;
  }

  lemma StoreChunksKeeps(t: Tables, h: Hash, state: State, versions: Versions, chunks: seq<Chunk>, now: int)
    requires Inv(t) && (state.Failed? ==> chunks == [])
    ensures Inv(StoreChunksSpec(t, h, state, versions, chunks, now))
  {
    if h in t.content && DistinctOrdinals(chunks) {
      var updated := t.(content := t.content[h := t.content[h].(state := state, versions := versions, updatedAt := now)]);
      StripKeeps(updated, h);
      InsertKeeps(Strip(updated, h), h, chunks);
    }
  }

  lemma MarkFailedKeeps(t: Tables, h: Hash, now: int)
    requires Inv(t)
    ensures Inv(MarkFailedSpec(t, h, now))
  {
    if h in t.content {
      StripKeeps(SetStateSpec(t, h, Failed, now), h);
    }
  }

  function Redescribed(t: Tables, g: nat, want: Descriptor): Tables
    requires g in t.gens
  {
    t.(gens := t.gens[g := t.gens[g].(desc := want)], current := Some(g))
  }

  lemma RedescribedVectors(t: Tables, g: nat, want: Descriptor)
    requires VectorsLive(t) && g in t.gens && want.dims == t.gens[g].desc.dims
    ensures VectorsLive(Redescribed(t, g, want))
  {
    var after := Redescribed(t, g, want);
    forall x, id | x in after.gens && id in after.gens[x].vecs
      ensures id in after.chunks && |after.gens[x].vecs[id]| == after.gens[x].desc.dims
    {
      assert x in t.gens && after.gens[x].vecs == t.gens[x].vecs && after.gens[x].desc.dims == t.gens[x].desc.dims;
      assert id in t.gens[x].vecs;
    }
  }

  lemma RedescribedIdentities(t: Tables, g: nat, want: Descriptor)
    requires IdentitiesUnique(t) && Matches(t, g, want)
    ensures IdentitiesUnique(Redescribed(t, g, want))
  {
    hide Descriptor.Identity;
    var after := Redescribed(t, g, want);
    forall x, y | x in after.gens && y in after.gens && after.gens[x].desc.Identity() == after.gens[y].desc.Identity()
      ensures x == y
    {
      assert t.gens[x].desc.Identity() == t.gens[y].desc.Identity();
    }
  }

  lemma RefreshKeeps(t: Tables, g: nat, want: Descriptor)
    requires Inv(t) && Matches(t, g, want)
    ensures Inv(Redescribed(t, g, want))
  {
    assert want.Identity().dims == want.dims && t.gens[g].desc.Identity().dims == t.gens[g].desc.dims;
    hide VectorsLive, IdentitiesUnique, Descriptor.Identity;
    RedescribedVectors(t, g, want);
    RedescribedIdentities(t, g, want);
  }

  function Minted(t: Tables, g: nat, want: Descriptor): Tables {
    t.(gens := t.gens[g := Generation(want, map[])], current := Some(g))
  }

  lemma MintedVectors(t: Tables, g: nat, want: Descriptor)
    requires VectorsLive(t)
    ensures VectorsLive(Minted(t, g, want))
  {
    var after := Minted(t, g, want);
    forall x, id | x in after.gens && id in after.gens[x].vecs
      ensures id in after.chunks && |after.gens[x].vecs[id]| == after.gens[x].desc.dims
    {
      assert id in t.gens[x].vecs;
    }
  }

  lemma MintedIdentities(t: Tables, g: nat, want: Descriptor)
    requires IdentitiesUnique(t) && !HasMatch(t, want)
    ensures IdentitiesUnique(Minted(t, g, want))
  {
    hide Descriptor.Identity;
    forall x | x in t.gens ensures t.gens[x].desc.Identity() != want.Identity() {
      assert !Matches(t, x, want);
    }
    var after := Minted(t, g, want);
    forall x, y | x in after.gens && y in after.gens && after.gens[x].desc.Identity() == after.gens[y].desc.Identity()
      ensures x == y
    {
      if x != g && y != g {
        assert t.gens[x].desc.Identity() == t.gens[y].desc.Identity();
      }
    }
  }

  lemma MintKeeps(t: Tables, g: nat, want: Descriptor)
    requires Inv(t) && !HasMatch(t, want) && g !in t.gens
    ensures Inv(Minted(t, g, want))
  {
    hide VectorsLive, IdentitiesUnique, HasMatch;
    MintedVectors(t, g, want);
    MintedIdentities(t, g, want);
  }

  lemma EnsureKeeps(t: Tables, want: Descriptor, after: Tables)
    requires Inv(t) && Ensured(t, want, after)
    ensures Inv(after)
  {
    hide Inv, HasMatch, IsNextGen;
    var g := after.current.value;
    if HasMatch(t, want) {
      RefreshKeeps(t, g, want);
    } else {
      MintKeeps(t, g, want);
    }
  }

  lemma {:induction false} PutVectorsKeys(vecs: map<nat, Vector>, ids: seq<nat>, added: seq<Vector>)
    requires |ids| == |added|
    ensures PutVectors(vecs, ids, added).Keys == vecs.Keys + Members(ids)
    ensures forall id :: id in PutVectors(vecs, ids, added) && id !in ids ==> PutVectors(vecs, ids, added)[id] == vecs[id]
    ensures forall id :: id in ids ==> PutVectors(vecs, ids, added)[id] in added
    decreases |ids|
  {
    if ids != [] {
      var n := |ids| - 1;
      PutVectorsKeys(vecs, ids[..n], added[..n]);
      assert ids == ids[..n] + [ids[n]];
    }
  }

  /** Distinct ids get each their own vector. */
  lemma {:induction false} PutVectorsAt(vecs: map<nat, Vector>, ids: seq<nat>, added: seq<Vector>, i: nat)
    requires |ids| == |added| && i < |ids|
    requires forall j, k :: 0 <= j < k < |ids| ==> ids[j] != ids[k]
    ensures ids[i] in PutVectors(vecs, ids, added) && PutVectors(vecs, ids, added)[ids[i]] == added[i]
    decreases |ids|
  {
    var n := |ids| - 1;
    if i < n {
      PutVectorsAt(vecs, ids[..n], added[..n], i);
    }
  }

  lemma VectorsKeep(t: Tables, ids: seq<nat>, vecs: seq<Vector>)
    requires Inv(t)
    ensures Inv(UpsertVectorsSpec(t, ids, vecs))
  {
    hide VectorsLive, IdentitiesUnique, PutVectors, LiveIds;
    if VectorOutcomeOf(t, ids, vecs) == Stored && ids != [] {
      VectorsKeepLive(t, ids, vecs);
      VectorsKeepIdentities(t, ids, vecs);
    }
  }

  lemma VectorsKeepLive(t: Tables, ids: seq<nat>, vecs: seq<Vector>)
    requires VectorsLive(t) && VectorOutcomeOf(t, ids, vecs) == Stored && ids != []
    ensures VectorsLive(UpsertVectorsSpec(t, ids, vecs))
  {
    hide PutVectors, LiveIds, VectorsLive;
    var g := t.current.value;
    var put := PutVectors(t.gens[g].vecs, ids, vecs);
    PutVectorsKeys(t.gens[g].vecs, ids, vecs);
    AllLive(t, ids);
    forall id | id in put ensures id in t.chunks && |put[id]| == t.gens[g].desc.dims {
      if id in ids {
        assert put[id] in vecs;
      } else {
        assert id in t.gens[g].vecs;
        LiveVector(t, g, id);
      }
    }
    GenerationStaysLive(t, g, put, UpsertVectorsSpec(t, ids, vecs));
  }

  lemma LiveVector(t: Tables, g: nat, id: nat)
    requires VectorsLive(t) && g in t.gens && id in t.gens[g].vecs
    ensures id in t.chunks && |t.gens[g].vecs[id]| == t.gens[g].desc.dims
  {
  }

  lemma GenerationStaysLive(t: Tables, g: nat, put: map<nat, Vector>, after: Tables)
    requires VectorsLive(t) && g in t.gens && after.chunks == t.chunks
    requires after.gens == t.gens[g := t.gens[g].(vecs := put)]
    requires forall id :: id in put ==> id in t.chunks && |put[id]| == t.gens[g].desc.dims
    ensures VectorsLive(after)
  {
    forall x, id {:trigger id in after.gens[x].vecs} | x in after.gens && id in after.gens[x].vecs
      ensures id in after.chunks && |after.gens[x].vecs[id]| == after.gens[x].desc.dims
    {
      if x == g {
        assert id in put;
      } else {
        LiveVector(t, x, id);
      }
    }
  }

  lemma VectorsKeepIdentities(t: Tables, ids: seq<nat>, vecs: seq<Vector>)
    requires IdentitiesUnique(t)
    ensures IdentitiesUnique(UpsertVectorsSpec(t, ids, vecs))
  {
    hide LiveIds, PutVectors, Descriptor.Identity;
    var after := UpsertVectorsSpec(t, ids, vecs);
    forall x, y | x in after.gens && y in after.gens && after.gens[x].desc.Identity() == after.gens[y].desc.Identity()
      ensures x == y
    {
      assert x in t.gens && y in t.gens && t.gens[x].desc == after.gens[x].desc && t.gens[y].desc == after.gens[y].desc;
    }
  }

  /** When as many distinct ids are live as ids were given, all are live and distinct. */
  lemma AllLive(t: Tables, ids: seq<nat>)
    requires |LiveIds(t, ids)| == |ids|
    ensures forall id :: id in ids ==> id in t.chunks
    ensures forall j, k :: 0 <= j < k < |ids| ==> ids[j] != ids[k]
  {
    DistinctCount(ids, LiveIds(t, ids));
  }

  lemma {:induction false} DistinctCount(ids: seq<nat>, live: set<nat>)
    requires live <= Members(ids) && |live| == |ids|
    ensures forall id :: id in ids ==> id in live
    ensures forall j, k :: 0 <= j < k < |ids| ==> ids[j] != ids[k]
  {
    if ids != [] {
      var n := |ids| - 1;
      var x, rest := ids[n], ids[..n];
      assert ids == rest + [x];
      var less := live - {x};
      assert less <= Members(rest);
      SeqSetSize(rest);
      SubsetSize(less, Members(rest));
      assert |less| <= n && |live| <= |less| + 1;
      assert x in live;
      DistinctCount(rest, less);
    }
  }

  lemma {:induction false} SeqSetSize(ids: seq<nat>)
    ensures |Members(ids)| <= |ids|
  {
    if ids != [] {
      var n := |ids| - 1;
      SeqSetSize(ids[..n]);
      assert ids == ids[..n] + [ids[n]];
      assert Members(ids) == Members(ids[..n]) + {ids[n]};
    }
  }

  lemma {:induction false} SubsetSize<T>(a: set<T>, b: set<T>)
    requires a <= b
    ensures |a| <= |b|
  {
    if a != {} {
      var x :| x in a;
      SubsetSize(a - {x}, b - {x});
    }
  }

  lemma DropContentKeeps(t: Tables, doomed: set<Hash>)
    requires Inv(t) && forall h :: h in doomed ==> !Referenced(t, h)
    ensures Inv(DropContent(t, doomed))
  {
    var after := DropContent(t, doomed);
    forall p | p in t.documents && t.documents[p].source.Read?
      ensures t.documents[p].source.hash in after.content
    {
      assert Referenced(t, t.documents[p].source.hash);
    }
  }

  lemma ResetKeeps(t: Tables, current: Versions)
    requires Inv(t)
    ensures Inv(ResetStaleSpec(t, current))
  {
  }

  lemma SameVectors(t: Tables, after: Tables)
    requires VectorsLive(t) && IdentitiesUnique(t) && OrdinalsUnique(t) && after.gens == t.gens && after.chunks == t.chunks
    ensures VectorsLive(after) && IdentitiesUnique(after) && OrdinalsUnique(after)
  {
    hide Descriptor.Identity, VectorsLive, IdentitiesUnique;
    MoreChunksLive(t, after);
    SameIdentities(t, after);
  }

  lemma RowWritesKeep(t: Tables, op: Op, after: Tables)
    requires Inv(t) && Step(t, op, after) && (op.Drop? || op.SetIndexed? || op.Reschedule?)
    ensures Inv(after)
  {
    hide VectorsLive, IdentitiesUnique, OrdinalsUnique, UpsertAll, StoreChunksSpec, MarkFailedSpec, ResetStaleSpec, Ensured,
      UpsertVectorsSpec, SweepTx;
    SameVectors(t, after);
  }

  /** What every transaction keeps. */
  lemma StepKeepsInv(t: Tables, op: Op, after: Tables)
    requires Inv(t) && Step(t, op, after)
    ensures Inv(after)
  {
    hide Inv, UpsertAll, DropDocuments, StoreChunksSpec, SetStateSpec, MarkFailedSpec, RescheduleSpec, ResetStaleSpec, Ensured,
      UpsertVectorsSpec, DropContent;
    match op
    case Upsert(docs, now) => UpsertAllKeeps(t, docs, now);
    case StoreChunked(h, versions, chunks, now) => StoreChunksKeeps(t, h, Chunked, versions, chunks, now);
    case StoreFailed(h, versions, now) => StoreChunksKeeps(t, h, Failed, versions, [], now);
    case MarkFailed(h, now) => MarkFailedKeeps(t, h, now);
    case ResetStale(current) => ResetKeeps(t, current);
    case Ensure(want) => EnsureKeeps(t, want, after);
    case Vectors(ids, vecs) => VectorsKeep(t, ids, vecs);
    case Sweep(scope, batch) => DropContentKeeps(t, Doomed(t, scope, batch));
    case _ => RowWritesKeep(t, op, after);
  }

  /** The catalog invariant in every reachable state: every document and chunk resolves to content,
      every vector in every generation belongs to a live chunk, no two generations share an
      identity, and failed content has no chunks and so no vectors. */
  lemma {:induction false} EveryReachableStateIsConsistent(states: seq<Tables>, ops: seq<Op>)
    requires Run(states, ops) && states[0] == EMPTY
    ensures forall i :: 0 <= i < |states| ==> Inv(states[i])
    decreases |ops|
  {
    if ops == [] {
      assert Inv(EMPTY);
    } else {
      var n := |ops| - 1;
      assert Run(states[..n + 1], ops[..n]);
      EveryReachableStateIsConsistent(states[..n + 1], ops[..n]);
      assert Inv(states[..n + 1][n]);
      StepKeepsInv(states[n], ops[n], states[n + 1]);
    }
  }

  // ---------------------------------------------------------------------------------------
  // Chunk ids live and die together

  /** Live ids are exactly the chunks of h. */
  ghost predicate Fated(stored: Tables, h: Hash, ids: set<nat>, t: Tables) {
    && (forall id :: id in ids ==> id < t.nextId)
    && (|| (ids == ChunkIds(t, h) && forall id :: id in ids ==> id in stored.chunks && t.chunks[id] == stored.chunks[id])
        || (forall id :: id in ids ==> id !in t.chunks))
  }

  lemma ChunksOfUpsert(t: Tables, docs: seq<Document>, now: int)
    ensures UpsertAll(t, docs, now).chunks == t.chunks && UpsertAll(t, docs, now).nextId == t.nextId
    decreases |docs|
  {
    if docs != [] {
      ChunksOfUpsert(t, docs[..|docs| - 1], now);
    }
  }

  lemma DropContentFate(stored: Tables, h: Hash, ids: set<nat>, t: Tables, doomed: set<Hash>)
    requires Fated(stored, h, ids, t)
    ensures Fated(stored, h, ids, DropContent(t, doomed))
  {
    var after := DropContent(t, doomed);
    if h !in doomed && ids == ChunkIds(t, h) {
      assert ChunkIds(after, h) == ids;
    }
  }

  lemma StripFate(stored: Tables, h: Hash, ids: set<nat>, t: Tables, g: Hash)
    requires Fated(stored, h, ids, t)
    ensures Fated(stored, h, ids, Strip(t, g))
  {
    var after := Strip(t, g);
    if g != h && ids == ChunkIds(t, h) {
      assert ChunkIds(after, h) == ids;
    }
  }

  /** Inserting for a content without chunks changes nobody else's; a content that dies with its
      old chunks stays dead, for new ids are new. */
  lemma InsertFate(stored: Tables, h: Hash, ids: set<nat>, t: Tables, g: Hash, chunks: seq<Chunk>)
    requires ids != {} && Fated(stored, h, ids, t) && ChunkIds(t, g) == {}
    requires forall id :: id in t.chunks ==> id < t.nextId
    ensures Fated(stored, h, ids, InsertChunks(t, g, chunks))
  {
    var after := InsertChunks(t, g, chunks);
    assert forall id :: id < t.nextId ==> (id in after.chunks <==> id in t.chunks);
    assert forall id :: id in t.chunks ==> after.chunks[id] == t.chunks[id];
    if ids == ChunkIds(t, h) {
      assert h != g;
      assert ChunkIds(after, h) == ids;
    }
  }

  lemma StoreChunksFate(stored: Tables, h: Hash, ids: set<nat>, t: Tables, g: Hash, state: State, versions: Versions, chunks: seq<Chunk>, now: int)
    requires Inv(t) && ids != {} && Fated(stored, h, ids, t)
    ensures Fated(stored, h, ids, StoreChunksSpec(t, g, state, versions, chunks, now))
  {
    if g in t.content && DistinctOrdinals(chunks) {
      var updated := t.(content := t.content[g := t.content[g].(state := state, versions := versions, updatedAt := now)]);
      assert ChunkIds(updated, h) == ChunkIds(t, h);
      StripFate(stored, h, ids, updated, g);
      assert ChunkIds(Strip(updated, g), g) == {};
      InsertFate(stored, h, ids, Strip(updated, g), g, chunks);
    }
  }

  lemma SameChunksFate(stored: Tables, h: Hash, ids: set<nat>, t: Tables, after: Tables)
    requires Fated(stored, h, ids, t) && after.chunks == t.chunks && after.nextId == t.nextId
    ensures Fated(stored, h, ids, after)
  {
    assert ChunkIds(after, h) == ChunkIds(t, h);
  }

  lemma StepFate(stored: Tables, h: Hash, ids: set<nat>, t: Tables, op: Op, after: Tables)
    requires Inv(t) && ids != {} && Fated(stored, h, ids, t) && Step(t, op, after)
    ensures Fated(stored, h, ids, after)
  {
    hide Fated, Inv, StoreChunksSpec, Doomed, Strip, UpsertAll, VectorOutcomeOf;
    match op
    case Upsert(docs, now) =>
      ChunksOfUpsert(t, docs, now);
      SameChunksFate(stored, h, ids, t, after);
    case StoreChunked(g, versions, chunks, now) => StoreChunksFate(stored, h, ids, t, g, Chunked, versions, chunks, now);
    case StoreFailed(g, versions, now) => StoreChunksFate(stored, h, ids, t, g, Failed, versions, [], now);
    case MarkFailed(g, now) =>
      var marked := SetStateSpec(t, g, Failed, now);
      SameChunksFate(stored, h, ids, t, marked);
      StripFate(stored, h, ids, marked, g);
    case Sweep(scope, batch) => DropContentFate(stored, h, ids, t, Doomed(t, scope, batch));
    case _ => SameChunksFate(stored, h, ids, t, after);
  }

  lemma StoredIdsFated(t: Tables, h: Hash, versions: Versions, chunks: seq<Chunk>, now: int)
    requires Inv(t) && h in t.content && DistinctOrdinals(chunks)
    ensures var stored := StoreChunksSpec(t, h, Chunked, versions, chunks, now);
            Fated(stored, h, Members(NewIds(t, |chunks|)), stored)
  {
    var stored := StoreChunksSpec(t, h, Chunked, versions, chunks, now);
    var ids := Members(NewIds(t, |chunks|));
    forall id ensures id in ids <==> t.nextId <= id < t.nextId + |chunks| {
      if t.nextId <= id < t.nextId + |chunks| {
        assert NewIds(t, |chunks|)[id - t.nextId] == id;
      }
    }
    assert ChunkIds(stored, h) == ids;
  }

  lemma {:induction false} RunFate(stored: Tables, h: Hash, ids: set<nat>, states: seq<Tables>, ops: seq<Op>)
    requires Run(states, ops) && Inv(states[0]) && ids != {} && Fated(stored, h, ids, states[0])
    ensures Inv(states[|ops|]) && Fated(stored, h, ids, states[|ops|])
    decreases |ops|
  {
    if ops != [] {
      var n := |ops| - 1;
      assert Run(states[..n + 1], ops[..n]);
      RunFate(stored, h, ids, states[..n + 1], ops[..n]);
      StepKeepsInv(states[n], ops[n], states[n + 1]);
      StepFate(stored, h, ids, states[n], ops[n], states[n + 1]);
    }
  }

  /** No mis-attached vectors: whatever transactions run after StoreChunks handed out ids, writing
      vectors for them either puts each vector on exactly the chunk its id was handed out for, or
      reports them superseded and changes nothing. */
  lemma VectorsReachTheirChunksOrNothing(
    before: Tables, h: Hash, versions: Versions, chunks: seq<Chunk>, now: int,
    states: seq<Tables>, ops: seq<Op>, vecs: seq<Vector>)
    requires Inv(before) && h in before.content && DistinctOrdinals(chunks) && chunks != []
    requires Run(states, ops) && states[0] == StoreChunksSpec(before, h, Chunked, versions, chunks, now)
    requires |vecs| == |chunks| && states[|ops|].current.Some?
    requires forall v :: v in vecs ==> |v| == CurrentDims(states[|ops|])
    ensures var t, ids := states[|ops|], NewIds(before, |chunks|);
            || (&& VectorOutcomeOf(t, ids, vecs) == Stored
                && (forall i :: 0 <= i < |ids| ==> ids[i] in t.chunks && t.chunks[ids[i]] == ChunkRow(h, chunks[i]))
                && Attached(UpsertVectorsSpec(t, ids, vecs), ids, vecs))
            || (VectorOutcomeOf(t, ids, vecs) == Superseded && UpsertVectorsSpec(t, ids, vecs) == t)
  {
    hide Inv, Step, Strip, UpsertVectorsSpec;
    var stored := states[0];
    var t, ids := states[|ops|], NewIds(before, |chunks|);
    StoreChunksKeeps(before, h, Chunked, versions, chunks, now);
    StoredIdsFated(before, h, versions, chunks, now);
    NewIdsMembers(before, |chunks|);
    assert ids[0] in Members(ids);
    RunFate(stored, h, Members(ids), states, ops);
    if forall id :: id in Members(ids) ==> id !in t.chunks {
      DeadIdsSupersede(t, ids, vecs);
    } else {
      forall i | 0 <= i < |ids| ensures ids[i] in t.chunks && t.chunks[ids[i]] == ChunkRow(h, chunks[i]) {
        assert ids[i] in Members(ids);
        StoredRows(before, h, versions, chunks, now, i);
      }
      LiveIdsAttach(t, ids, vecs);
    }
  }

  lemma StoredRows(before: Tables, h: Hash, versions: Versions, chunks: seq<Chunk>, now: int, i: nat)
    requires h in before.content && DistinctOrdinals(chunks) && i < |chunks|
    ensures var stored := StoreChunksSpec(before, h, Chunked, versions, chunks, now);
            && NewIds(before, |chunks|)[i] in stored.chunks
            && stored.chunks[NewIds(before, |chunks|)[i]] == ChunkRow(h, chunks[i])
  {
    var updated := before.(content := before.content[h := before.content[h].(state := Chunked, versions := versions, updatedAt := now)]);
    assert NewRow(Strip(updated, h), h, chunks, before.nextId + i) == ChunkRow(h, chunks[i]);
  }

  lemma DeadIdsSupersede(t: Tables, ids: seq<nat>, vecs: seq<Vector>)
    requires Inv(t) && t.current.Some? && |ids| == |vecs| && ids != []
    requires forall id :: id in Members(ids) ==> id !in t.chunks
    ensures VectorOutcomeOf(t, ids, vecs) == Superseded && UpsertVectorsSpec(t, ids, vecs) == t
  {
    forall id | id in ids ensures id !in t.chunks {
      assert id in Members(ids);
    }
    assert LiveIds(t, ids) == {};
  }

  /** Each id holds its own vector in the current generation. */
  ghost predicate Attached(t: Tables, ids: seq<nat>, vecs: seq<Vector>)
    requires |ids| == |vecs|
  {
    && t.current.Some? && t.current.value in t.gens
    && forall i :: 0 <= i < |ids| ==>
         ids[i] in t.gens[t.current.value].vecs && t.gens[t.current.value].vecs[ids[i]] == vecs[i]
  }

  lemma NewIdsMembers(t: Tables, n: nat)
    ensures forall j, k :: 0 <= j < k < n ==> NewIds(t, n)[j] != NewIds(t, n)[k]
  {
  }

  lemma LiveIdsAttach(t: Tables, ids: seq<nat>, vecs: seq<Vector>)
    requires Inv(t) && t.current.Some? && |ids| == |vecs|
    requires forall j, k :: 0 <= j < k < |ids| ==> ids[j] != ids[k]
    requires forall i :: 0 <= i < |ids| ==> ids[i] in t.chunks
    requires forall v :: v in vecs ==> |v| == CurrentDims(t)
    ensures VectorOutcomeOf(t, ids, vecs) == Stored && Attached(UpsertVectorsSpec(t, ids, vecs), ids, vecs)
  {
    assert LiveIds(t, ids) == Members(ids);
    DistinctSize(ids);
    forall i | 0 <= i < |ids|
      ensures ids[i] in PutVectors(t.gens[t.current.value].vecs, ids, vecs)
      ensures PutVectors(t.gens[t.current.value].vecs, ids, vecs)[ids[i]] == vecs[i]
    {
      PutVectorsAt(t.gens[t.current.value].vecs, ids, vecs, i);
    }
  }

  lemma {:induction false} DistinctSize(ids: seq<nat>)
    requires forall j, k :: 0 <= j < k < |ids| ==> ids[j] != ids[k]
    ensures |Members(ids)| == |ids|
  {
    if ids != [] {
      var n := |ids| - 1;
      DistinctSize(ids[..n]);
      assert ids == ids[..n] + [ids[n]];
      assert Members(ids) == Members(ids[..n]) + {ids[n]};
    }
  }
}
