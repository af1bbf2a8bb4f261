/** The orphan sweep (internal/adapters/sqlite/store.go: SweepOrphans) as a run of batches, with
    other writers' documents transactions landing between each batch's read and its transaction. */
module Sweep {
  import opened Bytes
  import opened Text
  import opened Catalog
  import opened CatalogProofs

  const SWEEP_BATCH := 256

  /** A documents transaction of another writer. */
  datatype DocOp = Upserted(docs: seq<Document>, now: int) | Dropped(paths: set<Path>)

  function ApplyDoc(t: Tables, op: DocOp): Tables {
    match op
    case Upserted(docs, now) => UpsertAll(t, docs, now)
    case Dropped(paths) => DropDocuments(t, paths)
  }

  function Interfere(t: Tables, ops: seq<DocOp>): Tables {
    if ops == [] then t else ApplyDoc(Interfere(t, ops[..|ops| - 1]), ops[|ops| - 1])
  }

  /** What lands in the gap of the next batch. */
  function Gap(t: Tables, env: seq<seq<DocOp>>): Tables {
    if env == [] then t else Interfere(t, env[0])
  }

  function Rest(env: seq<seq<DocOp>>): seq<seq<DocOp>> { if env == [] then [] else env[1..] }

  function Batch(t: Tables, scope: Scope, cursor: Str): seq<Str> { Page(Orphans(t, scope), cursor, SWEEP_BATCH) }

  function AsSet(batch: seq<Str>): set<Str> { set h | h in batch }

  function Beyond(t: Tables, cursor: Str): set<Hash> { set h | h in t.content && Less(cursor, h) }

  /** The outcome of a sweep: contents removed, contents other writers created, the tables, and whether
      every transaction landed. */
  datatype Swept = Swept(removed: int, created: int, tables: Tables, ok: bool)

  lemma BeyondShrinks(t: Tables, scope: Scope, cursor: Str)
    requires Batch(t, scope, cursor) != []
    ensures var batch := Batch(t, scope, cursor);
            var after := SweepTx(t, scope, AsSet(batch));
            |Beyond(after, batch[|batch| - 1])| < |Beyond(t, cursor)|
  {
    var batch := Batch(t, scope, cursor);
    var last := batch[|batch| - 1];
    var after := SweepTx(t, scope, AsSet(batch));
    PageFacts(Orphans(t, scope), cursor, SWEEP_BATCH);
    assert last in batch;
    assert last in Beyond(t, cursor);
    forall h | h in Beyond(after, last) ensures h in Beyond(t, cursor) - {last} {
      LessTransitive(cursor, last, h);
      LessIrreflexive(last);
    }
    SubsetSize(Beyond(after, last), Beyond(t, cursor) - {last});
  }

  /** The sweep from a cursor on; `landing` is how many of its transactions land before one fails. */
  function SweepFrom(t: Tables, scope: Scope, cursor: Str, env: seq<seq<DocOp>>, landing: nat): Swept
    decreases |env|, |Beyond(t, cursor)|
  {
    var batch := Batch(t, scope, cursor);
    if batch == [] then Swept(0, 0, t, true)
    else
      var mid := Gap(t, env);
      var created := |mid.content| - |t.content|;
      if landing == 0 then Swept(0, created, mid, false)
      else
        var n := |Doomed(mid, scope, AsSet(batch))|;
        var after := SweepTx(mid, scope, AsSet(batch));
        if |batch| < SWEEP_BATCH then Swept(n, created, after, true)
        else
          hide Batch, SweepTx, Doomed, Interfere;
          BeyondShrinks(t, scope, cursor);
          var rest := SweepFrom(after, scope, batch[|batch| - 1], Rest(env), landing - 1);
          Swept(n + rest.removed, created + rest.created, rest.tables, rest.ok)
  }

  // ---------------------------------------------------------------------------------------
  // Interference

  /** No transaction of env names this hash. */
  ghost predicate NeverNames(ops: seq<DocOp>, h: Hash) {
    forall op :: op in ops && op.Upserted? ==> forall d :: d in op.docs ==> d.row.source != Read(h)
  }

  ghost predicate EnvNeverNames(env: seq<seq<DocOp>>, h: Hash) {
    forall ops :: ops in env ==> NeverNames(ops, h)
  }

  /** No transaction of env touches the row at this path. */
  ghost predicate Touches(op: DocOp, p: Path) {
    match op
    case Upserted(docs, _) => exists d :: d in docs && d.path == p
    case Dropped(paths) => p in paths
  }

  ghost predicate NeverTouches(ops: seq<DocOp>, p: Path) {
    forall op :: op in ops ==> !Touches(op, p)
  }

  ghost predicate EnvNeverTouches(env: seq<seq<DocOp>>, p: Path) {
    forall ops :: ops in env ==> NeverTouches(ops, p)
  }

  /** Orphaned and in scope, or already gone; either way not referenced. */
  ghost predicate Unwanted(t: Tables, scope: Scope, h: Hash) {
    !Referenced(t, h) && (h in t.content ==> InScope(t, scope, h))
  }

  lemma {:induction false} UpsertLeavesUnnamed(t: Tables, docs: seq<Document>, now: int, h: Hash)
    requires forall d :: d in docs ==> d.row.source != Read(h)
    ensures var after := UpsertAll(t, docs, now);
            && (h in after.content <==> h in t.content)
            && (h in t.content ==> after.content[h] == t.content[h])
            && (Referenced(after, h) ==> Referenced(t, h))
    decreases |docs|
  {
    if docs != [] {
      var n := |docs| - 1;
      UpsertLeavesUnnamed(t, docs[..n], now, h);
      var before, after := UpsertAll(t, docs[..n], now), UpsertAll(t, docs, now);
      assert docs[n] in docs;
      if Referenced(after, h) {
        var p :| p in after.documents && after.documents[p].source == Read(h);
        assert p in before.documents && before.documents[p].source == Read(h);
      }
    }
  }

  lemma {:induction false} InterferenceLeavesUnnamed(t: Tables, ops: seq<DocOp>, scope: Scope, h: Hash)
    requires NeverNames(ops, h) && Unwanted(t, scope, h)
    ensures Unwanted(Interfere(t, ops), scope, h)
    ensures h in Interfere(t, ops).content <==> h in t.content
    decreases |ops|
  {
    if ops != [] {
      var n := |ops| - 1;
      assert ops[n] in ops;
      InterferenceLeavesUnnamed(t, ops[..n], scope, h);
      var before := Interfere(t, ops[..n]);
      match ops[n]
      case Upserted(docs, now) => UpsertLeavesUnnamed(before, docs, now, h);
      case Dropped(paths) =>
    }
  }

  lemma {:induction false} InterferenceKeepsInv(t: Tables, ops: seq<DocOp>)
    requires Inv(t)
    ensures Inv(Interfere(t, ops))
    ensures t.content.Keys <= Interfere(t, ops).content.Keys
    decreases |ops|
  {
    if ops != [] {
      var n := |ops| - 1;
      InterferenceKeepsInv(t, ops[..n]);
      var before := Interfere(t, ops[..n]);
      match ops[n]
      case Upserted(docs, now) =>
        UpsertAllKeeps(before, docs, now);
        UpsertGrowsContent(before, docs, now);
      case Dropped(paths) =>
    }
  }

  lemma {:induction false} UpsertGrowsContent(t: Tables, docs: seq<Document>, now: int)
    ensures t.content.Keys <= UpsertAll(t, docs, now).content.Keys
    decreases |docs|
  {
    if docs != [] {
      UpsertGrowsContent(t, docs[..|docs| - 1], now);
    }
  }

  // ---------------------------------------------------------------------------------------
  // What the sweep removes

  /** One batch takes h, or h is still ahead of the cursor. */
  lemma BatchTakesOrLeavesAhead(t: Tables, scope: Scope, cursor: Str, env: seq<seq<DocOp>>, h: Hash)
    requires Unwanted(t, scope, h) && (h in t.content ==> Less(cursor, h)) && EnvNeverNames(env, h)
    ensures var batch := Batch(t, scope, cursor);
            var after := SweepTx(Gap(t, env), scope, AsSet(batch));
            if batch == [] then h !in t.content
            else Unwanted(after, scope, h) && (h in after.content ==> |batch| == SWEEP_BATCH && Less(batch[|batch| - 1], h))
  {
    var batch := Batch(t, scope, cursor);
    PageFacts(Orphans(t, scope), cursor, SWEEP_BATCH);
    assert h in t.content ==> h in Orphans(t, scope);
    if batch != [] {
      var mid := Gap(t, env);
      if env != [] {
        assert env[0] in env;
        InterferenceLeavesUnnamed(t, env[0], scope, h);
      }
      assert batch[|batch| - 1] in batch;
      assert h in mid.content ==> h in Orphans(mid, scope);
      assert h in batch ==> h in AsSet(batch);
    }
  }

  /** Completeness under interference: a hash beyond the cursor that is in scope and orphaned, and
      that no concurrent transaction names, is gone when the sweep ends without a failed write. */
  lemma {:induction false} OrphansGo(t: Tables, scope: Scope, cursor: Str, env: seq<seq<DocOp>>, landing: nat, h: Hash)
    requires Unwanted(t, scope, h) && (h in t.content ==> Less(cursor, h)) && EnvNeverNames(env, h)
    requires SweepFrom(t, scope, cursor, env, landing).ok
    ensures h !in SweepFrom(t, scope, cursor, env, landing).tables.content
    decreases landing
  {
    hide Unwanted, Batch, SweepTx, Doomed, AsSet, SweepFrom, Gap;
    var batch := Batch(t, scope, cursor);
    BatchTakesOrLeavesAhead(t, scope, cursor, env, h);
    SweepStep(t, scope, cursor, env, landing);
    if |batch| >= SWEEP_BATCH {
      OrphansGo(SweepTx(Gap(t, env), scope, AsSet(batch)), scope, batch[|batch| - 1], Rest(env), landing - 1, h);
    }
  }

  /** What content h consists of: its queue state and everything derived from its bytes. */
  ghost predicate SameDerived(a: Tables, b: Tables, h: Hash) {
    && h in a.content && h in b.content
    && b.content[h].(updatedAt := 0) == a.content[h].(updatedAt := 0)
    && ChunkIds(a, h) == ChunkIds(b, h)
    && (forall id :: id in ChunkIds(a, h) ==> a.chunks[id] == b.chunks[id])
    && a.gens.Keys == b.gens.Keys
    && (forall g, id :: g in a.gens && id in ChunkIds(a, h) ==>
          (id in a.gens[g].vecs <==> id in b.gens[g].vecs)
          && (id in a.gens[g].vecs ==> a.gens[g].vecs[id] == b.gens[g].vecs[id]))
  }

  lemma {:induction false} UpsertKeepsDerived(t: Tables, docs: seq<Document>, now: int, p: Path, h: Hash)
    requires p in t.documents && t.documents[p].source == Read(h) && h in t.content
    requires forall d :: d in docs ==> d.path != p
    ensures var after := UpsertAll(t, docs, now);
            p in after.documents && after.documents[p] == t.documents[p] && SameDerived(t, after, h)
    decreases |docs|
  {
    if docs != [] {
      var n := |docs| - 1;
      UpsertKeepsDerived(t, docs[..n], now, p, h);
      assert docs[n] in docs;
      var before, after := UpsertAll(t, docs[..n], now), UpsertAll(t, docs, now);
      assert ChunkIds(after, h) == ChunkIds(before, h);
    }
  }

  lemma {:induction false} InterferenceKeepsDerived(t: Tables, ops: seq<DocOp>, p: Path, h: Hash)
    requires p in t.documents && t.documents[p].source == Read(h) && h in t.content && NeverTouches(ops, p)
    ensures var after := Interfere(t, ops);
            p in after.documents && after.documents[p] == t.documents[p] && SameDerived(t, after, h)
    decreases |ops|
  {
    if ops != [] {
      var n := |ops| - 1;
      InterferenceKeepsDerived(t, ops[..n], p, h);
      assert ops[n] in ops;
      var before := Interfere(t, ops[..n]);
      match ops[n]
      case Upserted(docs, now) => UpsertKeepsDerived(before, docs, now, p, h);
      case Dropped(paths) => assert ChunkIds(DropDocuments(before, paths), h) == ChunkIds(before, h);
    }
  }

  lemma SweepTxKeepsDerived(t: Tables, scope: Scope, batch: set<Str>, h: Hash)
    requires Referenced(t, h) && h in t.content
    ensures SameDerived(t, SweepTx(t, scope, batch), h)
  {
    var after := SweepTx(t, scope, batch);
    assert h !in Doomed(t, scope, batch);
    assert ChunkIds(after, h) == ChunkIds(t, h);
  }

  lemma SameDerivedTransitive(a: Tables, b: Tables, c: Tables, h: Hash)
    requires SameDerived(a, b, h) && SameDerived(b, c, h)
    ensures SameDerived(a, c, h)
  {
  }

  lemma GapKeepsDerived(t: Tables, env: seq<seq<DocOp>>, p: Path, h: Hash)
    requires p in t.documents && t.documents[p].source == Read(h) && h in t.content && EnvNeverTouches(env, p)
    ensures var mid := Gap(t, env);
            && p in mid.documents && mid.documents[p] == t.documents[p] && SameDerived(t, mid, h)
            && EnvNeverTouches(Rest(env), p)
  {
    if env != [] {
      assert env[0] in env;
      InterferenceKeepsDerived(t, env[0], p, h);
    }
  }

  lemma BatchKeepsDerived(t: Tables, scope: Scope, batch: set<Str>, env: seq<seq<DocOp>>, p: Path, h: Hash)
    requires p in t.documents && t.documents[p].source == Read(h) && h in t.content && EnvNeverTouches(env, p)
    ensures var after := SweepTx(Gap(t, env), scope, batch);
            && p in after.documents && after.documents[p] == t.documents[p] && SameDerived(t, after, h)
  {
    hide Interfere, Orphans, ChunkIds;
    GapKeepsDerived(t, env, p, h);
    var mid := Gap(t, env);
    assert Referenced(mid, h);
    SweepTxKeepsDerived(mid, scope, batch, h);
    SameDerivedTransitive(t, mid, SweepTx(mid, scope, batch), h);
  }

  /** A content that an untouched row references from the start keeps its state, its chunks and its
      vectors through the whole sweep. */
  lemma {:induction false} ReferencedThroughout(t: Tables, scope: Scope, cursor: Str, env: seq<seq<DocOp>>, landing: nat,
                                                p: Path, h: Hash)
    requires p in t.documents && t.documents[p].source == Read(h) && h in t.content && EnvNeverTouches(env, p)
    ensures SameDerived(t, SweepFrom(t, scope, cursor, env, landing).tables, h)
    decreases landing
  {
    hide Batch, SweepTx, AsSet, Doomed, Interfere, SameDerived, SweepFrom, Gap;
    var batch := Batch(t, scope, cursor);
    SweepStep(t, scope, cursor, env, landing);
    if batch == [] {
      SameDerivedItself(t, h);
    } else {
      GapKeepsDerived(t, env, p, h);
      if landing > 0 {
        BatchKeepsDerived(t, scope, AsSet(batch), env, p, h);
        var after := SweepTx(Gap(t, env), scope, AsSet(batch));
        if |batch| >= SWEEP_BATCH {
          assert h in after.content by { InContent(t, after, h); }
          ReferencedThroughout(after, scope, batch[|batch| - 1], Rest(env), landing - 1, p, h);
          SameDerivedTransitive(t, after, SweepFrom(after, scope, batch[|batch| - 1], Rest(env), landing - 1).tables, h);
        }
      }
    }
  }

  lemma InContent(a: Tables, b: Tables, h: Hash)
    requires SameDerived(a, b, h)
    ensures h in b.content
  {
  }

  /** The tables just before the transaction of batch k, after whatever landed in its gap; none when the
      sweep does not get that far. */
  function BeforeBatch(t: Tables, scope: Scope, cursor: Str, env: seq<seq<DocOp>>, landing: nat, k: nat): Option<Tables>
    decreases k
  {
    var batch := Batch(t, scope, cursor);
    if batch == [] then None
    else if k == 0 then Some(Gap(t, env))
    else if landing == 0 || |batch| < SWEEP_BATCH then None
    else BeforeBatch(SweepTx(Gap(t, env), scope, AsSet(batch)), scope, batch[|batch| - 1], Rest(env), landing - 1, k - 1)
  }

  /** What is still to land after the gap of batch k. */
  function EnvAfter(env: seq<seq<DocOp>>, k: nat): seq<seq<DocOp>> {
    if k == 0 then Rest(env) else EnvAfter(Rest(env), k - 1)
  }

  /** Safety under interference, and what the second look inside each transaction is for: a content that
      a row references by the time any batch's transaction begins, whether it was referenced all along or
      only since that batch's candidates were read, keeps its state, its chunks and its vectors to the end
      of the sweep, so long as nothing later touches that row. */
  lemma {:induction false} ReferencedStays(t: Tables, scope: Scope, cursor: Str, env: seq<seq<DocOp>>, landing: nat, k: nat,
                                           p: Path, h: Hash)
    requires BeforeBatch(t, scope, cursor, env, landing, k).Some?
    requires var mid := BeforeBatch(t, scope, cursor, env, landing, k).value;
             p in mid.documents && mid.documents[p].source == Read(h) && h in mid.content
    requires EnvNeverTouches(EnvAfter(env, k), p)
    ensures SameDerived(BeforeBatch(t, scope, cursor, env, landing, k).value,
                        SweepFrom(t, scope, cursor, env, landing).tables, h)
    decreases k
  {
    hide Batch, SweepTx, AsSet, Doomed, Gap, SameDerived, SweepFrom;
    var batch := Batch(t, scope, cursor);
    SweepStep(t, scope, cursor, env, landing);
    var mid := Gap(t, env);
    if k > 0 {
      ReferencedStays(SweepTx(mid, scope, AsSet(batch)), scope, batch[|batch| - 1], Rest(env), landing - 1, k - 1, p, h);
    } else if landing == 0 {
      SameDerivedItself(mid, h);
    } else {
      var after := SweepTx(mid, scope, AsSet(batch));
      ReferencedInTx(mid, scope, AsSet(batch), p, h);
      if |batch| >= SWEEP_BATCH {
        ReferencedThroughout(after, scope, batch[|batch| - 1], Rest(env), landing - 1, p, h);
        SameDerivedTransitive(mid, after, SweepFrom(after, scope, batch[|batch| - 1], Rest(env), landing - 1).tables, h);
      }
    }
  }

  lemma ReferencedInTx(mid: Tables, scope: Scope, batch: set<Str>, p: Path, h: Hash)
    requires p in mid.documents && mid.documents[p].source == Read(h) && h in mid.content
    ensures var after := SweepTx(mid, scope, batch);
            && p in after.documents && after.documents[p] == mid.documents[p] && h in after.content
            && SameDerived(mid, after, h)
  {
    assert Referenced(mid, h);
    SweepTxKeepsDerived(mid, scope, batch, h);
  }

  lemma SameDerivedItself(t: Tables, h: Hash)
    requires h in t.content
    ensures SameDerived(t, t, h)
  {
  }

  /** One batch: what the gap creates and the transaction removes. */
  lemma BatchCounts(t: Tables, scope: Scope, batch: set<Str>, env: seq<seq<DocOp>>)
    requires Inv(t)
    ensures var mid := Gap(t, env);
            var after := SweepTx(mid, scope, batch);
            && Inv(after) && |mid.content| >= |t.content|
            && |after.content| == |mid.content| - |Doomed(mid, scope, batch)|
  {
    hide Inv, Interfere, InScope;
    var mid := Gap(t, env);
    if env != [] {
      InterferenceKeepsInv(t, env[0]);
    }
    SubsetSize(t.content.Keys, mid.content.Keys);
    var doomed := Doomed(mid, scope, batch);
    DropContentKeeps(mid, doomed);
    var after := SweepTx(mid, scope, batch);
    assert doomed <= mid.content.Keys && after.content.Keys == mid.content.Keys - doomed;
  }

  lemma GapKeepsInv(t: Tables, env: seq<seq<DocOp>>)
    requires Inv(t)
    ensures Inv(Gap(t, env)) && |Gap(t, env).content| >= |t.content|
  {
    hide Inv, Interfere;
    if env != [] {
      InterferenceKeepsInv(t, env[0]);
      SubsetSize(t.content.Keys, Gap(t, env).content.Keys);
    }
  }

  /** The count is exact, also when a write fails part-way: rows before, plus those other writers
      created, minus those removed, are the rows after; and the catalog invariant holds throughout. */
  lemma {:induction false} SweepCountsExactly(t: Tables, scope: Scope, cursor: Str, env: seq<seq<DocOp>>, landing: nat)
    requires Inv(t)
    ensures var s := SweepFrom(t, scope, cursor, env, landing);
            Inv(s.tables) && |s.tables.content| == |t.content| + s.created - s.removed && s.removed >= 0 && s.created >= 0
    decreases landing
  {
    hide Inv, Batch, SweepTx, AsSet, Doomed, Interfere;
    var batch := Batch(t, scope, cursor);
    if batch != [] {
      GapKeepsInv(t, env);
      if landing > 0 {
        BatchCounts(t, scope, AsSet(batch), env);
        if |batch| >= SWEEP_BATCH {
          SweepCountsExactly(SweepTx(Gap(t, env), scope, AsSet(batch)), scope, batch[|batch| - 1], Rest(env), landing - 1);
        }
      }
    }
  }

  // ---------------------------------------------------------------------------------------
  // Undisturbed

  lemma DropRowsTwice(t: Tables, a: set<Hash>, b: set<Hash>)
    ensures t.content - a - b == t.content - (a + b)
    ensures var rest := t.chunks - ChunkIdsOf(t.chunks, a);
            && rest - ChunkIdsOf(rest, b) == t.chunks - ChunkIdsOf(t.chunks, a + b)
            && ChunkIdsOf(t.chunks, a) + ChunkIdsOf(rest, b) == ChunkIdsOf(t.chunks, a + b)
  {
  }

  lemma DropVectorsInTwo(gens: map<nat, Generation>, x: set<nat>, y: set<nat>)
    ensures DropVectors(DropVectors(gens, x), y) == DropVectors(gens, x + y)
  {
    forall g | g in gens ensures DropVectors(DropVectors(gens, x), y)[g] == DropVectors(gens, x + y)[g] {
      assert gens[g].vecs - x - y == gens[g].vecs - (x + y);
    }
  }

  lemma DropTwice(t: Tables, a: set<Hash>, b: set<Hash>)
    ensures DropContent(DropContent(t, a), b) == DropContent(t, a + b)
  {
    hide ChunkIdsOf, DropVectors;
    DropRowsTwice(t, a, b);
    DropVectorsInTwo(t.gens, ChunkIdsOf(t.chunks, a), ChunkIdsOf(DropContent(t, a).chunks, b));
  }

  lemma OrphansAfterDrop(t: Tables, scope: Scope, a: set<Hash>)
    ensures Orphans(DropContent(t, a), scope) == Orphans(t, scope) - a
  {
    var after := DropContent(t, a);
    assert after.documents == t.documents;
    forall h: Hash ensures Referenced(after, h) <==> Referenced(t, h) {
    }
  }

  function OrphansBeyond(t: Tables, scope: Scope, cursor: Str): set<Hash> {
    set h | h in Orphans(t, scope) && Less(cursor, h)
  }

  lemma DropNothing(t: Tables)
    ensures DropContent(t, {}) == t
  {
    forall g | g in t.gens ensures DropContent(t, {}).gens[g] == t.gens[g] {
      assert DropContent(t, {}).gens[g].vecs == t.gens[g].vecs;
    }
    assert DropContent(t, {}).gens == t.gens;
    assert DropContent(t, {}).chunks == t.chunks;
  }

  /** Batching does not show: undisturbed, and with every write landing, the paged sweep removes all
      in-scope orphans at once. */
  lemma {:induction false} UndisturbedSweep(t: Tables, scope: Scope, cursor: Str, landing: nat)
    requires SweepFrom(t, scope, cursor, [], landing).ok
    ensures var doomed := OrphansBeyond(t, scope, cursor);
            SweepFrom(t, scope, cursor, [], landing) == Swept(|doomed|, 0, DropContent(t, doomed), true)
    decreases landing
  {
    hide Batch, AsSet, Doomed, DropContent, OrphansBeyond, SweepFrom, Onwards;
    var batch := Batch(t, scope, cursor);
    SweepAlone(t, scope, cursor, landing);
    if |batch| < SWEEP_BATCH {
      LastBatch(t, scope, cursor);
      if batch == [] {
        DropNothing(t);
      }
    } else {
      var last := batch[|batch| - 1];
      var mine := Doomed(t, scope, AsSet(batch));
      var after := SweepTx(t, scope, AsSet(batch));
      UndisturbedSweep(after, scope, last, landing - 1);
      BatchThenRest(t, scope, cursor);
      var others := OrphansBeyond(after, scope, last);
      DropTwice(t, mine, others);
      assert after == DropContent(t, mine);
      DisjointSize(mine, others);
    }
  }

  /** One batch with nothing in its gap. */
  lemma SweepAlone(t: Tables, scope: Scope, cursor: Str, landing: nat)
    ensures var batch := Batch(t, scope, cursor);
            var n, after := |Doomed(t, scope, AsSet(batch))|, SweepTx(t, scope, AsSet(batch));
            SweepFrom(t, scope, cursor, [], landing) ==
              if batch == [] then Swept(0, 0, t, true)
              else if landing == 0 then Swept(0, 0, t, false)
              else if |batch| < SWEEP_BATCH then Swept(n, 0, after, true)
              else
                var rest := SweepFrom(after, scope, batch[|batch| - 1], [], landing - 1);
                Swept(n + rest.removed, rest.created, rest.tables, rest.ok)
  {
    hide Batch, SweepTx, AsSet, Doomed, SweepFrom, Interfere;
    SweepStep(t, scope, cursor, [], landing);
  }

  lemma DisjointSize(a: set<Hash>, b: set<Hash>)
    requires a !! b
    ensures |a + b| == |a| + |b|
  {
  }

  /** The sweep, one batch at a time. */
  lemma SweepStep(t: Tables, scope: Scope, cursor: Str, env: seq<seq<DocOp>>, landing: nat)
    ensures Batch(t, scope, cursor) == [] ==> SweepFrom(t, scope, cursor, env, landing) == Swept(0, 0, t, true)
    ensures Batch(t, scope, cursor) != [] ==>
              SweepFrom(t, scope, cursor, env, landing) == Onwards(t, scope, cursor, env, landing, Batch(t, scope, cursor))
  {
    hide Batch, SweepTx, AsSet, Doomed, Gap;
  }

  function Onwards(t: Tables, scope: Scope, cursor: Str, env: seq<seq<DocOp>>, landing: nat, batch: seq<Str>): Swept
    requires batch != []
  {
    var mid := Gap(t, env);
    var n, created := |Doomed(mid, scope, AsSet(batch))|, |mid.content| - |t.content|;
    var after := SweepTx(mid, scope, AsSet(batch));
    if landing == 0 then Swept(0, created, mid, false)
    else if |batch| < SWEEP_BATCH then Swept(n, created, after, true)
    else
      var rest := SweepFrom(after, scope, batch[|batch| - 1], Rest(env), landing - 1);
      Swept(n + rest.removed, created + rest.created, rest.tables, rest.ok)
  }

  /** A page that is not full holds every orphan past the cursor. */
  lemma LastBatch(t: Tables, scope: Scope, cursor: Str)
    requires |Batch(t, scope, cursor)| < SWEEP_BATCH
    ensures var batch := Batch(t, scope, cursor);
            && Doomed(t, scope, AsSet(batch)) == OrphansBeyond(t, scope, cursor)
            && (batch == [] ==> OrphansBeyond(t, scope, cursor) == {})
  {
    hide Orphans, Page;
    PageFacts(Orphans(t, scope), cursor, SWEEP_BATCH);
  }

  lemma BatchThenRest(t: Tables, scope: Scope, cursor: Str)
    requires |Batch(t, scope, cursor)| >= SWEEP_BATCH
    ensures var batch := Batch(t, scope, cursor);
            var mine := Doomed(t, scope, AsSet(batch));
            var others := OrphansBeyond(DropContent(t, mine), scope, batch[|batch| - 1]);
            mine !! others && mine + others == OrphansBeyond(t, scope, cursor)
  {
    hide DropContent, Orphans, Page;
    var batch := Batch(t, scope, cursor);
    var mine := Doomed(t, scope, AsSet(batch));
    var last := batch[|batch| - 1];
    var others := OrphansBeyond(DropContent(t, mine), scope, last);
    PageFacts(Orphans(t, scope), cursor, SWEEP_BATCH);
    OrphansAfterDrop(t, scope, mine);
    assert last in batch;
    forall h | h in others ensures h in OrphansBeyond(t, scope, cursor) && h !in mine {
      LessTransitive(cursor, last, h);
    }
    forall h | h in OrphansBeyond(t, scope, cursor) ensures h in mine || h in others {
      assert h in batch || Less(last, h);
    }
    assert mine + others == OrphansBeyond(t, scope, cursor);
  }
}
