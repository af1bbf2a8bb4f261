/** The store (internal/adapters/sqlite/store.go, vec.go, queue.go): each method is one or more
    committed transactions over the tables, tied to the functions of Catalog. A `fault` argument
    says that a transaction does not land. */
module Stores {
  import opened Bytes
  import opened Text
  import opened Domain
  import opened Paths
  import opened Catalog
  import opened CatalogProofs
  import opened Sweep

  datatype StoreError = Fault | ContentGone | ContentSuperseded | NoVecTable | Refused

  datatype Result<+T> = Ok(value: T) | Err(error: StoreError)

  /** Discovery's remembered mount points; Garbled is a value that does not parse. */
  datatype MountMemory = Absent | Recorded(mounts: seq<Path>) | Garbled

  datatype MountsAnswer = Known(mounts: seq<Path>, remembered: bool) | Corrupt | Unreadable

  const PATH_BATCH := 256

  /** How much of a list the first `landing` chunks of it cover. */
  function Landed(n: nat, landing: nat): (k: nat)
    ensures k <= n
  {
    if landing * PATH_BATCH < n then landing * PATH_BATCH else n
  }

  function PathSet(paths: seq<Path>): set<Path> { set p | p in paths }

  lemma PathSetEmpty(paths: seq<Path>)
    ensures PathSet(paths[..0]) == {}
  {
  }

  lemma DropPiecewise(documents: map<Path, Row>, paths: seq<Path>, i: nat, end: nat)
    requires i <= end <= |paths|
    ensures documents - PathSet(paths[..i]) - PathSet(paths[i..end]) == documents - PathSet(paths[..end])
  {
    assert paths[..end] == paths[..i] + paths[i..end];
    assert PathSet(paths[..end]) == PathSet(paths[..i]) + PathSet(paths[i..end]);
  }

  class Store {
    var documents: map<Path, Row>
    var content: map<Hash, Content>
    var chunks: map<nat, ChunkRow>
    var nextId: nat
    var gens: map<nat, Generation>
    var current: Option<nat>
    var memory: MountMemory

    ghost function T(): Tables
      reads this
    {
      Tables(documents, content, chunks, nextId, gens, current)
    }

    constructor ()
      ensures T() == EMPTY && memory == Absent
    {
      documents, content, chunks, nextId, gens, current := map[], map[], map[], 1, map[], None;
      memory := Absent;
    }

    // -------------------------------------------------------------------------------------
    // Documents

    method UpsertDocuments(docs: seq<Document>, now: int, fault: bool) returns (ok: bool)
      modifies this`documents, this`content
      ensures ok == (docs == [] || !fault)
      ensures T() == if ok then UpsertAll(old(T()), docs, now) else old(T())
    {
      if docs == [] {
        return true;
      }
      if fault {
        return false;
      }
      for i := 0 to |docs|
        invariant T() == UpsertAll(old(T()), docs[..i], now)
      {
        content := TouchContent(content, docs[i].row.source, now);
        documents := documents[docs[i].path := docs[i].row];
        assert docs[..i + 1][..i] == docs[..i];
      }
      assert docs[..|docs|] == docs;
      return true;
    }

    method GetByPath(path: Path) returns (row: Option<Row>)
      ensures row == if path in documents then Some(documents[path]) else None
    {
      row := if path in documents then Some(documents[path]) else None;
    }

    method ListPaths(after: Str, limit: nat) returns (page: seq<Path>)
      ensures page == Page(documents.Keys, after, limit)
      ensures IsPage(documents.Keys, after, limit, page)
    {
      PageFacts(documents.Keys, after, limit);
      page := Page(documents.Keys, after, limit);
    }

    /** Removes the row at dir and every row beneath it, and refuses to empty the catalog. */
    method DeleteByPathPrefix(dir: Path, fault: bool) returns (r: Result<int>)
      modifies this`documents
      ensures r.Ok? ==> r.value == |old(documents)| - |documents|
      ensures r.Err? ==> T() == old(T())
      ensures TrimSlashes(dir) == [] ==> r == Err(Refused)
      ensures r.Ok? ==> forall p :: p in documents <==>
                p in old(documents) && !(Within(p, TrimSlashes(dir)) && p != TrimSlashes(dir) + [SLASH])
      ensures forall p :: p in documents ==> p in old(documents) && documents[p] == old(documents)[p]
    {
      var trimmed := TrimSlashes(dir);
      if trimmed == [] {
        return Err(Refused);
      }
      if fault {
        return Err(Fault);
      }
      var doomed := set p | p in documents && InRange(p, trimmed);
      forall p ensures InRange(p, trimmed) <==> Within(p, trimmed) && p != trimmed + [SLASH] {
        assert trimmed != ROOT by { TrimmedHasNoTrail(dir); }
        RangeIsWithin(p, trimmed);
      }
      RemovedCount(documents, doomed);
      var removed := |doomed|;
      documents := documents - doomed;
      return Ok(removed);
    }

    /** One chunk's transaction. */
    method DeleteChunk(paths: seq<Path>) returns (n: int)
      modifies this`documents
      ensures documents == old(documents) - PathSet(paths)
      ensures n == |old(documents)| - |documents|
    {
      var gone := set p | p in paths && p in documents;
      RemovedCount(documents, gone);
      documents := documents - gone;
      return |gone|;
    }

    /** `landing` is how many chunk transactions land before one fails. */
    method DeleteByPaths(paths: seq<Path>, landing: nat) returns (removed: int, ok: bool)
      modifies this`documents
      ensures removed == |old(documents)| - |documents|
      ensures ok <==> [] !in paths && Landed(|paths|, landing) == |paths|
      ensures T() == if [] in paths then old(T())
                     else DropDocuments(old(T()), PathSet(paths[..Landed(|paths|, landing)]))
    {
      removed := 0;
      if [] in paths {
        return 0, false;
      }
      hide PathSet;
      PathSetEmpty(paths);
      var i, chunk := 0, 0;
      while i < |paths|
        invariant i == Landed(|paths|, chunk) && chunk <= landing
        invariant documents == old(documents) - PathSet(paths[..i])
        invariant removed == |old(documents)| - |documents|
        decreases |paths| - i
      {
        if chunk == landing {
          return removed, false;
        }
        var end := if i + PATH_BATCH <= |paths| then i + PATH_BATCH else |paths|;
        var n := DeleteChunk(paths[i..end]);
        removed := removed + n;
        DropPiecewise(old(documents), paths, i, end);
        i, chunk := end, chunk + 1;
      }
      return removed, true;
    }

    method KnownMounts(fault: bool) returns (r: MountsAnswer)
      ensures r == if fault then Unreadable
                   else match memory
                     case Absent => Known([], false)
                     case Recorded(mounts) => Known(mounts, true)
                     case Garbled => Corrupt
    {
      if fault {
        return Unreadable;
      }
      match memory
      case Absent => return Known([], false);
      case Recorded(mounts) => return Known(mounts, true);
      case Garbled => return Corrupt;
    }

    method SetKnownMounts(mounts: seq<Path>, fault: bool) returns (ok: bool)
      modifies this`memory
      ensures ok == !fault
      ensures memory == if ok then Recorded(mounts) else old(memory)
    {
      if fault {
        return false;
      }
      memory := Recorded(mounts);
      return true;
    }

    // -------------------------------------------------------------------------------------
    // Content

    /** deleteVectorsTx. */
    method DeleteVectors(ids: set<nat>)
      modifies this`gens
      ensures gens == DropVectors(old(gens), ids)
    {
      var todo := gens.Keys;
      while todo != {}
        invariant gens.Keys == old(gens).Keys && todo <= gens.Keys
        invariant forall g :: g in gens ==>
                    gens[g] == if g in todo then old(gens)[g] else DropVectors(old(gens), ids)[g]
      {
        var g :| g in todo;
        gens := gens[g := gens[g].(vecs := gens[g].vecs - ids)];
        todo := todo - {g};
      }
    }

    method StoreChunks(h: Hash, state: State, versions: Versions, added: seq<Chunk>, now: int, fault: bool)
      returns (r: Result<seq<nat>>)
      requires Inv(T())
      modifies this`content, this`chunks, this`nextId, this`gens
      ensures r == if fault then Err(Fault)
                   else if h !in old(content) then Err(ContentGone)
                   else if !DistinctOrdinals(added) then Err(Refused)
                   else Ok(NewIds(old(T()), |added|))
      ensures T() == if r.Ok? then StoreChunksSpec(old(T()), h, state, versions, added, now) else old(T())
    {
      if fault {
        return Err(Fault);
      }
      if h !in content {
        return Err(ContentGone);
      }
      if !DistinctOrdinals(added) {
        return Err(Refused);
      }
      content := content[h := content[h].(state := state, versions := versions, updatedAt := now)];
      var replaced := set id | id in chunks && chunks[id].hash == h;
      DeleteVectors(replaced);
      chunks := chunks - replaced;
      var ids := InsertRows(h, added);
      return Ok(ids);
    }

    /** The insert loop: AUTOINCREMENT hands out each id once. */
    method InsertRows(h: Hash, added: seq<Chunk>) returns (ids: seq<nat>)
      modifies this`chunks, this`nextId
      ensures ids == NewIds(old(T()), |added|)
      ensures T() == InsertChunks(old(T()), h, added)
    {
      hide InsertChunks;
      ids := [];
      InsertNone(T(), h, added);
      for i := 0 to |added|
        invariant nextId == old(nextId) + i
        invariant |ids| == i && forall k :: 0 <= k < i ==> ids[k] == old(nextId) + k
        invariant T() == InsertChunks(old(T()), h, added[..i])
      {
        chunks := chunks[nextId := ChunkRow(h, added[i])];
        ids := ids + [nextId];
        nextId := nextId + 1;
        InsertOneMore(old(T()), h, added, i);
      }
      assert added[..|added|] == added;
    }

    method UpdateContentState(h: Hash, state: State, now: int, fault: bool) returns (r: Result<()>)
      modifies this`content
      ensures r == if fault then Err(Fault) else if h !in old(content) then Err(ContentGone) else Ok(())
      ensures T() == if r.Ok? then SetStateSpec(old(T()), h, state, now) else old(T())
    {
      if fault {
        return Err(Fault);
      }
      if h !in content {
        return Err(ContentGone);
      }
      content := content[h := content[h].(state := state, updatedAt := now)];
      return Ok(());
    }

    method MarkFailed(h: Hash, now: int, fault: bool) returns (r: Result<()>)
      modifies this`content, this`chunks, this`gens
      ensures r == if fault then Err(Fault) else if h !in old(content) then Err(ContentGone) else Ok(())
      ensures T() == if r.Ok? then MarkFailedSpec(old(T()), h, now) else old(T())
    {
      if fault {
        return Err(Fault);
      }
      if h !in content {
        return Err(ContentGone);
      }
      content := content[h := content[h].(state := Failed, updatedAt := now)];
      var ids := set id | id in chunks && chunks[id].hash == h;
      DeleteVectors(ids);
      chunks := chunks - ids;
      return Ok(());
    }

    method Reschedule(h: Hash, attempts: int, at: int, now: int, fault: bool) returns (r: Result<()>)
      modifies this`content
      ensures r == if fault then Err(Fault) else if h !in old(content) then Err(ContentGone) else Ok(())
      ensures T() == if r.Ok? then RescheduleSpec(old(T()), h, attempts, at, now) else old(T())
    {
      if fault {
        return Err(Fault);
      }
      if h !in content {
        return Err(ContentGone);
      }
      content := content[h := content[h].(attempts := attempts, nextRetryAt := Some(at), updatedAt := now)];
      return Ok(());
    }

    method ResetStale(stages: Versions, fault: bool) returns (r: Result<int>)
      modifies this`content
      ensures r.Ok? <==> stages == map[] || !fault
      ensures r.Ok? ==> r.value == |StaleRows(old(T()), stages)|
      ensures T() == if r.Ok? then ResetStaleSpec(old(T()), stages) else old(T())
    {
      if stages == map[] {
        assert content == map h | h in content :: ResetOne(content[h], stages);
        assert StaleRows(T(), stages) == {};
        return Ok(0);
      }
      if fault {
        return Err(Fault);
      }
      var moved := set h | h in content && content[h].state.Terminal() && Stale(content[h].versions, stages);
      assert moved == StaleRows(T(), stages);
      content := map h | h in content :: ResetOne(content[h], stages);
      return Ok(|moved|);
    }

    // -------------------------------------------------------------------------------------
    // Vectors

    method EnsureVecTable(e: Embedder, dims: int, fault: bool) returns (r: Result<()>)
      requires Inv(T())
      modifies this`gens, this`current
      ensures r == if !ValidEmbedder(e, dims) then Err(Refused) else if fault then Err(Fault) else Ok(())
      ensures r.Ok? ==> Ensured(old(T()), Wanted(e, dims), T())
      ensures r.Err? ==> T() == old(T())
    {
      if !ValidEmbedder(e, dims) {
        return Err(Refused);
      }
      if fault {
        return Err(Fault);
      }
      hide Inv, Matches, HasMatch;
      var want := Wanted(e, dims);
      var name, maxGen := FindGeneration(want);
      match name {
        case Some(g) =>
          gens := gens[g := gens[g].(desc := want)];
        case None =>
          gens := gens[maxGen + 1 := Generation(want, map[])];
          name := Some(maxGen + 1);
      }
      current := name;
      return Ok(());
    }

    /** The scan of the generations: the one whose identity matches, if any, and the highest number. */
    method FindGeneration(want: Descriptor) returns (name: Option<nat>, maxGen: nat)
      requires Inv(T())
      ensures name.Some? ==> Matches(T(), name.value, want) && HasMatch(T(), want)
      ensures name.None? ==> !HasMatch(T(), want) && IsNextGen(T(), maxGen + 1)
    {
      hide Inv;
      name, maxGen := None, 0;
      var todo := gens.Keys;
      while todo != {}
        invariant todo <= gens.Keys
        invariant name.None? ==> forall g :: g in gens && g !in todo ==> !Matches(T(), g, want)
        invariant name.Some? ==> Matches(T(), name.value, want)
        invariant forall g :: g in gens && g !in todo ==> g <= maxGen
        invariant maxGen == 0 || maxGen in gens
      {
        var g :| g in todo;
        todo := todo - {g};
        maxGen := if g > maxGen then g else maxGen;
        if gens[g].desc.Identity() == want.Identity() {
          name := Some(g);
        }
      }
    }

    method UpsertVectors(ids: seq<nat>, vecs: seq<Vector>, fault: bool) returns (r: Result<()>)
      requires Inv(T())
      modifies this`gens
      ensures fault && ids != [] && |ids| == |vecs| ==> r == Err(Fault)
      ensures !fault || ids == [] || |ids| != |vecs| ==>
                r == match VectorOutcomeOf(old(T()), ids, vecs)
                     case Stored => Ok(())
                     case Superseded => Err(ContentSuperseded)
                     case NoTable => Err(NoVecTable)
                     case _ => Err(Refused)
      ensures T() == if r.Ok? then UpsertVectorsSpec(old(T()), ids, vecs) else old(T())
    {
      if |ids| != |vecs| {
        return Err(Refused);
      }
      if |ids| == 0 {
        return Ok(());
      }
      if fault {
        return Err(Fault);
      }
      if current.None? || current.value !in gens {
        return Err(NoVecTable);
      }
      var live := set id | id in ids && id in chunks;
      assert live == LiveIds(T(), ids);
      if |live| != |ids| {
        return Err(ContentSuperseded);
      }
      var table := gens[current.value];
      var staged := table.vecs;
      for i := 0 to |vecs|
        invariant staged == PutVectors(table.vecs, ids[..i], vecs[..i])
        invariant forall k :: 0 <= k < i ==> |vecs[k]| == table.desc.dims
      {
        if |vecs[i]| != table.desc.dims {
          return Err(Refused);
        }
        staged := staged[ids[i] := vecs[i]];
        assert ids[..i + 1][..i] == ids[..i] && vecs[..i + 1][..i] == vecs[..i];
      }
      assert ids[..|ids|] == ids && vecs[..|vecs|] == vecs;
      gens := gens[current.value := table.(vecs := staged)];
      return Ok(());
    }

    /** A transaction of another process: a scan's, a sweep's, or one that chunks a content afresh. */
    method CommittedByAnother(tx: Op)
      requires Inv(T()) && (tx.Upsert? || tx.Drop? || tx.Sweep? || tx.StoreChunked?)
      modifies this`documents, this`content, this`chunks, this`nextId, this`gens
      ensures CatalogProofs.Step(old(T()), tx, T())
    {
      hide Inv, UpsertAll, Doomed;
      match tx {
        case Upsert(docs, now) =>
          var ok := UpsertDocuments(docs, now, false);
        case Drop(paths) =>
          documents := documents - paths;
        case Sweep(scope, batch) =>
          var after := SweepTx(Tables(documents, content, chunks, nextId, gens, current), scope, batch);
          content, chunks, gens := after.content, after.chunks, after.gens;
        case StoreChunked(h, versions, added, now) =>
          var r := StoreChunks(h, Chunked, versions, added, now, false);
      }
    }

    // -------------------------------------------------------------------------------------
    // The orphan sweep

    /** Other writers' documents transactions. */
    method Disturb(ops: seq<DocOp>)
      modifies this`documents, this`content
      ensures T() == Interfere(old(T()), ops)
    {
      for i := 0 to |ops|
        invariant T() == Interfere(old(T()), ops[..i])
      {
        match ops[i] {
          case Upserted(docs, now) =>
            var ok := UpsertDocuments(docs, now, false);
          case Dropped(paths) =>
            documents := documents - paths;
        }
        assert ops[..i + 1][..i] == ops[..i];
      }
      assert ops[..|ops|] == ops;
    }

    method DeleteVectorsOfAll(doomed: set<Hash>)
      modifies this`gens
      ensures gens == DropVectors(old(gens), ChunkIdsOf(chunks, doomed))
    {
      var todo := doomed;
      DropVectorsNone(gens);
      assert ChunkIdsOf(chunks, {}) == {} && doomed - todo == {};
      while todo != {}
        invariant todo <= doomed
        invariant gens == DropVectors(old(gens), ChunkIdsOf(chunks, doomed - todo))
      {
        var h :| h in todo;
        ghost var before := ChunkIdsOf(chunks, doomed - todo);
        var ids := ChunkIdsOf(chunks, {h});
        DeleteVectors(ids);
        DropVectorsInTwo(old(gens), before, ids);
        todo := todo - {h};
        assert doomed - todo == doomed - (todo + {h}) + {h};
        assert before + ids == ChunkIdsOf(chunks, doomed - todo);
      }
      assert doomed - {} == doomed;
    }

    /** One sweep transaction: verify, delete vectors hash by hash, delete content, and with it by
        cascade its chunks. */
    method SweepBatch(scope: Scope, batch: seq<Str>) returns (n: int)
      modifies this`content, this`chunks, this`gens
      ensures T() == SweepTx(old(T()), scope, AsSet(batch))
      ensures n == |Doomed(old(T()), scope, AsSet(batch))|
    {
      var doomed := set h | h in content && (scope.AllScope? || !content[h].state.Terminal())
                            && !(exists p :: p in documents && documents[p].source == Read(h)) && h in batch;
      assert doomed == Doomed(T(), scope, AsSet(batch));
      n := |doomed|;
      DeleteVectorsOfAll(doomed);
      chunks := chunks - ChunkIdsOf(chunks, doomed);
      content := content - doomed;
    }

    method NextBatch(scope: Scope, cursor: Str) returns (batch: seq<Str>)
      ensures batch == Batch(T(), scope, cursor)
    {
      batch := Page(Orphans(Tables(documents, content, chunks, nextId, gens, current), scope), cursor, SWEEP_BATCH);
    }

    /** What other writers commit between a batch's read and its transaction. */
    method PassGap(env: seq<seq<DocOp>>) returns (rest: seq<seq<DocOp>>)
      modifies this`documents, this`content
      ensures T() == Gap(old(T()), env) && rest == Rest(env)
    {
      if env == [] {
        return [];
      }
      Disturb(env[0]);
      return env[1..];
    }

    /** `fault` fails the first look; `landing` is how many batch transactions land before one fails.
        What was removed before a failure is still reported. */
    method SweepOrphans(scope: Scope, env: seq<seq<DocOp>>, fault: bool, landing: nat) returns (removed: int, ok: bool)
      modifies this`documents, this`content, this`chunks, this`gens
      ensures fault ==> removed == 0 && !ok && T() == old(T())
      ensures !fault ==> var s := SweepFrom(old(T()), scope, [], env, landing);
                         removed == s.removed && ok == s.ok && T() == s.tables
    {
      hide Batch, SweepTx, Gap, Orphans, Doomed, Page, SweepFrom, Beyond, AsSet;
      if fault {
        return 0, false;
      }
      var due := Orphans(Tables(documents, content, chunks, nextId, gens, current), scope) != {};
      if !due {
        NothingDue(T(), scope);
        SweepStep(T(), scope, [], env, landing);
        return 0, true;
      }
      removed := 0;
      var cursor: Str, rest, left := [], env, landing;
      while true
        invariant LeadsTo(SweepFrom(T(), scope, cursor, rest, left), removed, SweepFrom(old(T()), scope, [], env, landing))
        decreases |rest|, |Beyond(T(), cursor)|
      {
        var batch := NextBatch(scope, cursor);
        SweepStep(T(), scope, cursor, rest, left);
        if |batch| == 0 {
          return removed, true;
        }
        if rest == [] {
          GapOfNothing(T(), rest);
          BeyondShrinks(T(), scope, cursor);
        }
        cursor := batch[|batch| - 1];
        rest := PassGap(rest);
        if left == 0 {
          return removed, false;
        }
        left := left - 1;
        var n := SweepBatch(scope, batch);
        removed := removed + n;
        if |batch| < SWEEP_BATCH {
          return removed, true;
        }
      }
    }
  }

  /** What is left of a sweep, after so many contents are gone, completes the whole. */
  ghost predicate LeadsTo(rest: Swept, removed: int, whole: Swept) {
    rest.tables == whole.tables && rest.ok == whole.ok && removed + rest.removed == whole.removed
  }

  lemma NothingDue(t: Tables, scope: Scope)
    requires Orphans(t, scope) == {}
    ensures Batch(t, scope, []) == []
  {
    PageFacts(Orphans(t, scope), [], SWEEP_BATCH);
  }

  lemma GapOfNothing(t: Tables, env: seq<seq<DocOp>>)
    requires env == []
    ensures Gap(t, env) == t
  {
  }

  lemma TrimmedHasNoTrail(dir: Path)
    ensures TrimSlashes(dir) != ROOT
  {
    var n := RunBack(dir, SLASH);
    if n < |dir| {
      assert TrimSlashes(dir)[|dir| - n - 1] != SLASH;
    }
  }

  lemma RemovedCount<K, V>(m: map<K, V>, gone: set<K>)
    requires gone <= m.Keys
    ensures |m - gone| == |m| - |gone|
  {
    assert (m - gone).Keys == m.Keys - gone;
    assert |m.Keys - gone| == |m.Keys| - |gone|;
  }

  lemma DropVectorsNone(gens: map<nat, Generation>)
    ensures DropVectors(gens, {}) == gens
  {
    forall g | g in gens ensures DropVectors(gens, {})[g] == gens[g] {
      assert gens[g].vecs - {} == gens[g].vecs;
    }
  }

  lemma InsertNone(t: Tables, h: Hash, added: seq<Chunk>)
    ensures InsertChunks(t, h, added[..0]) == t
  {
    assert InsertChunks(t, h, added[..0]).chunks == t.chunks;
  }

  lemma InsertOneMore(t: Tables, h: Hash, added: seq<Chunk>, i: nat)
    requires i < |added|
    ensures InsertChunks(t, h, added[..i + 1])
         == InsertChunks(t, h, added[..i]).(
              chunks := InsertChunks(t, h, added[..i]).chunks[t.nextId + i := ChunkRow(h, added[i])],
              nextId := t.nextId + i + 1)
  {
    hide DistinctOrdinals;
    var a, b := InsertChunks(t, h, added[..i]), InsertChunks(t, h, added[..i + 1]);
    assert NewRow(t, h, added[..i + 1], t.nextId + i) == ChunkRow(h, added[i]);
    forall id | t.nextId <= id < t.nextId + i ensures NewRow(t, h, added[..i + 1], id) == NewRow(t, h, added[..i], id) {
    }
    assert b.chunks == a.chunks[t.nextId + i := ChunkRow(h, added[i])];
  }
}
