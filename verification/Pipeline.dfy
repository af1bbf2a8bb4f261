/** The indexing pipeline and the scheduler's sweeps as one machine over the tables
    (internal/pipeline/pipeline.go, internal/scheduler/scheduler.go): the steps of every process that
    ever indexed this database, crashes included, and what each of them keeps. */
module Pipeline {
  import opened Bytes
  import opened Text
  import opened Domain
  import opened Catalog
  import opened CatalogProofs

  // ---------------------------------------------------------------------------------------
  // Stage versions

  /** "chunker", "embedding", "embedding_dims" and "vec_metric". */
  const CHUNKER: Str := [99, 104, 117, 110, 107, 101, 114]
  const EMBEDDING: Str := [101, 109, 98, 101, 100, 100, 105, 110, 103]
  const DIMS: Str := [101, 109, 98, 101, 100, 100, 105, 110, 103, 95, 100, 105, 109, 115]
  const METRIC: Str := [118, 101, 99, 95, 109, 101, 116, 114, 105, 99]

  /** EmbeddingSpec.Fingerprint and strconv.Itoa, which spell different values differently. */
  datatype Spelling = Spelling(fingerprint: Embedder -> Str, decimal: nat -> Str)

  ghost predicate Injective(s: Spelling) {
    && (forall e, f :: s.fingerprint(e) == s.fingerprint(f) ==> e == f)
    && (forall c, d :: s.decimal(c) == s.decimal(d) ==> c == d)
  }

  /** One process's configuration, and the dimension count its endpoint answers with. */
  datatype Config = Config(embedder: Embedder, dims: nat, chunker: Str, maxAttempts: int)

  /** StageVersions(0) without the dimensions: what the first sweep compares. */
  function KnownStages(s: Spelling, c: Config): Versions {
    map[CHUNKER := c.chunker, EMBEDDING := s.fingerprint(c.embedder), METRIC := COSINE]
  }

  /** What the second sweep compares. */
  function DimsStage(s: Spelling, c: Config): Versions { map[DIMS := s.decimal(c.dims)] }

  function StageVersions(s: Spelling, c: Config): Versions { KnownStages(s, c) + DimsStage(s, c) }

  /** Stage keys other stages own survive a re-index. */
  function Merged(versions: Versions, sv: Versions): Versions { versions + sv }

  /** The row says its vectors were made by this embedder, in this many dimensions, for cosine search. */
  predicate Stamped(s: Spelling, v: Versions, e: Embedder, dims: nat) {
    && EMBEDDING in v && v[EMBEDDING] == s.fingerprint(e)
    && DIMS in v && v[DIMS] == s.decimal(dims)
    && METRIC in v && v[METRIC] == COSINE
  }

  // ---------------------------------------------------------------------------------------
  // The machine

  /** Where the scheduler goroutine is with the content it claimed. */
  datatype Work =
    | NoWork
    | Claimed(h: Hash)
    | Awaiting(h: Hash, ids: seq<nat>)
    | Vectored(h: Hash)
    | Failing(h: Hash)
    | Probing(h: Hash)
    | Charging(h: Hash)
    | GivingUp(h: Hash)

  /** `claimed` is the attempt count the row in hand had when it was claimed, and `rewritten` what another
      process has done to that row since its chunks were stored; `lost` is the contents this process gave up
      on, so rewritten; `alone` says that no other process has written since this one started. */
  datatype Machine = Machine(
    t: Tables, cfg: Config, sweptVersions: bool, sweptDims: bool, prepared: bool, work: Work,
    claimed: int, rewritten: bool, lost: set<Hash>, alone: bool)

  datatype Op =
    | Restart(cfg: Config)
    | Upsert(docs: seq<Document>, now: int) | Drop(paths: set<Path>) | Collect(scope: Scope, batch: set<Str>)
    | Another(tx: CatalogProofs.Op)
    | SweepVersions | Prepare | SweepDims
    | Claim(h: Hash) | Stop
    | Defer(at: int, now: int)
    | StoreChunks(chunks: seq<Chunk>, now: int) | Undecodable(now: int) | Poison(versions: Versions, now: int)
    | EmbedTransient | ProbePasses
    | StoreVectors(vecs: seq<Vector>) | VectorsSuperseded(vecs: seq<Vector>)
    | SetIndexed(now: int) | MarkFailed(now: int) | Charge(at: int, now: int)

  function RowOf(m: Machine): Content
    requires !m.work.NoWork? && m.work.h in m.t.content
  {
    m.t.content[m.work.h]
  }

  function NewVersions(s: Spelling, m: Machine): Versions
    requires !m.work.NoWork? && m.work.h in m.t.content
  {
    Merged(RowOf(m).versions, StageVersions(s, m.cfg))
  }

  function With(m: Machine, t: Tables, work: Work): Machine { m.(t := t, work := work) }

  /** What another process may commit: a scan, an orphan sweep, an unfinished content chunked afresh. */
  predicate Outside(t: Tables, tx: CatalogProofs.Op) {
    || tx.Upsert? || tx.Drop? || tx.Sweep?
    || (tx.StoreChunked? && tx.hash in t.content && !t.content[tx.hash].state.Terminal())
  }

  /** Where this process leaves the catalog to itself for long: between contents, and while it waits on the
      network. */
  predicate Away(work: Work) { work.NoWork? || work.Awaiting? || work.Probing? }

  /** Whether another process has undone the stamps of the content in hand: it swept the row away, after which
      any row that takes its place is unstamped, or it last chunked the content afresh under other stages. */
  predicate Undone(s: Spelling, m: Machine, tx: CatalogProofs.Op) {
    if m.work.NoWork? then m.rewritten
    else if tx.Sweep? && m.work.h in Doomed(m.t, tx.scope, tx.batch) then true
    else if tx.StoreChunked? && tx.hash == m.work.h && DistinctOrdinals(tx.chunks)
    then Stale(tx.versions, StageVersions(s, m.cfg))
    else m.rewritten
  }

  /** The machine after another process's transaction. */
  function Disturbed(s: Spelling, m: Machine, tx: CatalogProofs.Op, t: Tables): Machine {
    m.(t := t, alone := false, rewritten := Undone(s, m, tx))
  }

  function Taken(m: Machine, h: Hash): Machine
    requires h in m.t.content
  {
    m.(work := Claimed(h), claimed := m.t.content[h].attempts, lost := m.lost - {h})
  }

  /** The content in hand has failed for good. */
  function Buried(m: Machine, t: Tables): Machine {
    m.(t := t, work := NoWork, lost := if m.work.GivingUp? && m.rewritten then m.lost + {m.work.h} else m.lost)
  }

  /** One committed transaction, or one answer from the endpoint. Discovery and the orphan sweep run on
      the same goroutine between contents; Another is a second writer, which the design rules out and the
      code guards against; Stop is an abandoned claim, a write that did not land, or a cancellation;
      Restart is a crash, or a clean one, under any configuration. */
  ghost predicate Step(s: Spelling, m: Machine, op: Op, n: Machine) {
    match op
    case Restart(cfg) => n == Started(m.t, cfg)
    case Another(tx) =>
      Away(m.work) && Outside(m.t, tx) && CatalogProofs.Step(m.t, tx, n.t) && n == Disturbed(s, m, tx, n.t)
    case Upsert(docs, now) => m.work.NoWork? && n == m.(t := UpsertAll(m.t, docs, now))
    case Drop(paths) => m.work.NoWork? && n == m.(t := DropDocuments(m.t, paths))
    case Collect(scope, batch) => m.work.NoWork? && n == m.(t := SweepTx(m.t, scope, batch))
    case SweepVersions =>
      && m.work.NoWork? && !m.sweptVersions
      && n == m.(t := ResetStaleSpec(m.t, KnownStages(s, m.cfg)), sweptVersions := true)
    case Prepare =>
      && m.work.NoWork? && m.sweptVersions
      && Ensured(m.t, Wanted(m.cfg.embedder, m.cfg.dims), n.t) && n == m.(t := n.t, prepared := true)
    case SweepDims =>
      && m.work.NoWork? && m.prepared && !m.sweptDims
      && n == m.(t := ResetStaleSpec(m.t, DimsStage(s, m.cfg)), sweptDims := true)
    case Claim(h) =>
      && m.work.NoWork? && m.sweptVersions && m.prepared && m.sweptDims
      && h in m.t.content && !m.t.content[h].state.Terminal()
      && n == Taken(m, h)
    case Stop => n == m.(work := NoWork)
    case Defer(at, now) =>
      && m.work.Claimed? && m.work.h in m.t.content
      && n == With(m, RescheduleSpec(m.t, m.work.h, RowOf(m).attempts, at, now), NoWork)
    case StoreChunks(chunks, now) =>
      && m.work.Claimed? && m.work.h in m.t.content && DistinctOrdinals(chunks)
      && n == With(m.(rewritten := false), StoreChunksSpec(m.t, m.work.h, Chunked, NewVersions(s, m), chunks, now),
                   if chunks == [] then Vectored(m.work.h) else Awaiting(m.work.h, NewIds(m.t, |chunks|)))
    case Undecodable(now) =>
      && m.work.Claimed? && m.work.h in m.t.content
      && n == With(m, StoreChunksSpec(m.t, m.work.h, Failed, NewVersions(s, m), [], now), Failing(m.work.h))
    case Poison(versions, now) =>
      && m.work.Awaiting? && m.work.h in m.t.content && !Stale(versions, StageVersions(s, m.cfg))
      && n == With(m, StoreChunksSpec(m.t, m.work.h, Failed, versions, [], now), Failing(m.work.h))
    case EmbedTransient => m.work.Awaiting? && n == m.(work := Probing(m.work.h))
    case ProbePasses =>
      && m.work.Probing? && Ensured(m.t, Wanted(m.cfg.embedder, m.cfg.dims), n.t)
      && n == With(m, n.t, Charging(m.work.h))
    case StoreVectors(vecs) =>
      && m.work.Awaiting? && VectorOutcomeOf(m.t, m.work.ids, vecs) == VectorOutcome.Stored
      && n == With(m, UpsertVectorsSpec(m.t, m.work.ids, vecs), Vectored(m.work.h))
    case VectorsSuperseded(vecs) =>
      && m.work.Awaiting? && VectorOutcomeOf(m.t, m.work.ids, vecs) == Superseded
      && n == m.(work := Charging(m.work.h))
    case SetIndexed(now) =>
      m.work.Vectored? && n == With(m, SetStateSpec(m.t, m.work.h, Indexed, now), NoWork)
    case MarkFailed(now) =>
      (m.work.Failing? || m.work.GivingUp?) && n == Buried(m, MarkFailedSpec(m.t, m.work.h, now))
    case Charge(at, now) =>
      && m.work.Charging? && m.work.h in m.t.content
      && n == With(m, RescheduleSpec(m.t, m.work.h, m.claimed + 1, at, now),
                   if m.claimed + 1 >= m.cfg.maxAttempts then GivingUp(m.work.h) else NoWork)
  }

  ghost predicate Run(s: Spelling, states: seq<Machine>, ops: seq<Op>) {
    |states| == |ops| + 1 && forall i :: 0 <= i < |ops| ==> Step(s, states[i], ops[i], states[i + 1])
  }

  /** A process as it starts, over these tables. */
  function Started(t: Tables, cfg: Config): Machine { Machine(t, cfg, false, false, false, NoWork, 0, false, {}, true) }

  /** The first process, over a new database. */
  function Boot(cfg: Config): Machine { Started(EMPTY, cfg) }

  // ---------------------------------------------------------------------------------------
  // What every step keeps

  /** Indexed content is wholly embedded: each of its chunks has a vector in a generation that its own
      stamps name. Content from before a stamp existed is not spoken for. */
  ghost predicate Embedded(s: Spelling, t: Tables) {
    forall h :: h in t.content && t.content[h].state.Indexed? ==> EmbeddedAt(s, t, h)
  }

  ghost predicate EmbeddedAt(s: Spelling, t: Tables, h: Hash)
    requires h in t.content
  {
    forall id, e, d :: id in ChunkIds(t, h) && Stamped(s, t.content[h].versions, e, d) ==> HasVector(t, id, e, d)
  }

  ghost predicate HasVector(t: Tables, id: nat, e: Embedder, d: nat) {
    exists g :: g in t.gens && t.gens[g].desc.Identity() == Wanted(e, d).Identity() && id in t.gens[g].vecs
  }

  /** The finished rows whose stamps are current: what is indexed, and what failed, but for what is lost. */
  predicate Spoken(state: State, lost: bool) { state.Indexed? || (state.Failed? && !lost) }

  ghost predicate FinishedCurrent(t: Tables, current: Versions, lost: set<Hash>) {
    forall h :: h in t.content && Spoken(t.content[h].state, h in lost) ==> !Stale(t.content[h].versions, current)
  }

  /** A lost content that stands failed stands under stale stamps. */
  ghost predicate LostStale(s: Spelling, m: Machine) {
    forall h :: h in m.lost && h in m.t.content && m.t.content[h].state.Failed? ==>
      Stale(m.t.content[h].versions, StageVersions(s, m.cfg))
  }

  /** Nothing is lost before the sweeps are done, and what is in hand is not lost yet. */
  ghost predicate LostLate(m: Machine) {
    (m.lost != {} ==> m.sweptDims) && (!m.work.NoWork? ==> m.work.h !in m.lost)
  }

  /** `rewritten` tells the stamps of the row in hand, and its absence. */
  ghost predicate Told(s: Spelling, m: Machine, h: Hash) {
    if h in m.t.content then Stale(m.t.content[h].versions, StageVersions(s, m.cfg)) <==> m.rewritten else m.rewritten
  }

  ghost predicate Dead(t: Tables, ids: seq<nat>) {
    forall id :: id in ids ==> id !in t.chunks && id < t.nextId
  }

  predicate DistinctIds(ids: seq<nat>) { forall i, j :: 0 <= i < j < |ids| ==> ids[i] != ids[j] }

  ghost predicate Prepared(m: Machine) {
    && m.t.current.Some? && m.t.current.value in m.t.gens
    && m.t.gens[m.t.current.value].desc.Identity() == Wanted(m.cfg.embedder, m.cfg.dims).Identity()
  }

  ghost predicate Fresh(s: Spelling, m: Machine, h: Hash) {
    h in m.t.content && !Stale(m.t.content[h].versions, StageVersions(s, m.cfg))
  }

  /** What holds of the content being worked on. */
  ghost predicate WorkOk(s: Spelling, m: Machine) {
    match m.work
    case NoWork => true
    case Claimed(h) => h in m.t.content
    case Awaiting(h, ids) =>
      && ids != [] && DistinctIds(ids) && Told(s, m, h)
      && ((Fresh(s, m, h) && Members(ids) == ChunkIds(m.t, h)) || (!m.alone && Dead(m.t, ids)))
    case Vectored(h) =>
      Fresh(s, m, h) && m.t.current.Some? && m.t.current.value in m.t.gens
      && ChunkIds(m.t, h) <= m.t.gens[m.t.current.value].vecs.Keys
    case Failing(h) => Fresh(s, m, h)
    case Probing(h) => Told(s, m, h)
    case Charging(h) => Told(s, m, h)
    case GivingUp(h) => h in m.t.content && Told(s, m, h)
  }

  ghost predicate Swept(s: Spelling, m: Machine) {
    && (m.sweptVersions ==> FinishedCurrent(m.t, KnownStages(s, m.cfg), m.lost))
    && (m.sweptDims ==> FinishedCurrent(m.t, DimsStage(s, m.cfg), m.lost))
    && (m.prepared ==> m.sweptVersions && Prepared(m))
    && (m.sweptDims ==> m.prepared)
    && (!m.work.NoWork? ==> m.sweptDims)
  }

  ghost predicate Healthy(s: Spelling, m: Machine) {
    Inv(m.t) && Embedded(s, m.t) && Swept(s, m) && WorkOk(s, m) && LostStale(s, m) && LostLate(m)
  }

  // ---------------------------------------------------------------------------------------
  // What a transaction leaves alone

  /** Outside `except`: no new chunk, no newly terminal row, no vector lost to a surviving chunk. */
  ghost predicate LeavesAlone(t: Tables, after: Tables, except: set<Hash>) {
    && (forall id :: id in after.chunks && after.chunks[id].hash !in except ==>
          id in t.chunks && t.chunks[id].hash == after.chunks[id].hash)
    && (forall k :: k in after.content && k !in except && after.content[k].state.Terminal() ==>
          k in t.content && t.content[k].state == after.content[k].state && t.content[k].versions == after.content[k].versions)
    && VectorsStay(t, after, except)
  }

  ghost predicate VectorsStay(t: Tables, after: Tables, except: set<Hash>) {
    forall g :: g in t.gens ==>
      && g in after.gens && after.gens[g].desc.Identity() == t.gens[g].desc.Identity()
      && forall id :: id in t.gens[g].vecs && id in after.chunks && after.chunks[id].hash !in except ==> id in after.gens[g].vecs
  }

  lemma EmbeddedElsewhere(s: Spelling, t: Tables, after: Tables, except: set<Hash>, h: Hash)
    requires Embedded(s, t) && LeavesAlone(t, after, except)
    requires h in after.content && h !in except && after.content[h].state.Indexed?
    ensures EmbeddedAt(s, after, h)
  {
    hide Stamped, Descriptor.Identity;
    forall id, e, d | id in ChunkIds(after, h) && Stamped(s, after.content[h].versions, e, d)
      ensures HasVector(after, id, e, d)
    {
      assert EmbeddedAt(s, t, h) && id in ChunkIds(t, h);
      var g :| g in t.gens && t.gens[g].desc.Identity() == Wanted(e, d).Identity() && id in t.gens[g].vecs;
      assert g in after.gens && id in after.gens[g].vecs;
    }
  }

  lemma CurrentElsewhere(t: Tables, after: Tables, except: set<Hash>, current: Versions, lost: set<Hash>, still: set<Hash>)
    requires FinishedCurrent(t, current, lost) && LeavesAlone(t, after, except) && lost <= still
    requires forall h :: h in except && h in after.content && Spoken(after.content[h].state, h in still) ==>
               !Stale(after.content[h].versions, current)
    ensures FinishedCurrent(after, current, still)
  {
    hide Stale, VectorsStay;
  }

  lemma LostElsewhere(s: Spelling, m: Machine, n: Machine, except: set<Hash>)
    requires LostStale(s, m) && LeavesAlone(m.t, n.t, except) && n.cfg == m.cfg && n.lost <= m.lost + except
    requires forall h :: h in except && h in n.lost && h in n.t.content && n.t.content[h].state.Failed? ==>
               Stale(n.t.content[h].versions, StageVersions(s, n.cfg))
    ensures LostStale(s, n)
  {
    hide Stale, StageVersions, VectorsStay;
  }

  /** Everything the invariant says of other contents, and the flags, survive such a transaction. */
  lemma AloneKeeps(s: Spelling, m: Machine, n: Machine, except: set<Hash>)
    requires Healthy(s, m) && Inv(n.t) && LeavesAlone(m.t, n.t, except)
    requires n.cfg == m.cfg && n.sweptVersions == m.sweptVersions && n.sweptDims == m.sweptDims && n.prepared == m.prepared
    requires m.lost <= n.lost <= m.lost + except
    requires n.t.current == m.t.current && (n.work.NoWork? || m.sweptDims)
    requires forall h :: h in except && h in n.t.content && Spoken(n.t.content[h].state, h in n.lost) ==> Fresh(s, n, h)
    requires forall h :: h in except && h in n.t.content && n.t.content[h].state.Indexed? ==> EmbeddedAt(s, n.t, h)
    requires forall h :: h in except && h in n.lost && h in n.t.content && n.t.content[h].state.Failed? ==>
               Stale(n.t.content[h].versions, StageVersions(s, n.cfg))
    ensures Embedded(s, n.t) && Swept(s, n) && LostStale(s, n)
  {
    forall h | h in n.t.content && n.t.content[h].state.Indexed? ensures EmbeddedAt(s, n.t, h) {
      hide EmbeddedAt, LeavesAlone, Inv, Swept, WorkOk, Fresh, LostStale, LostLate;
      if h !in except {
        EmbeddedElsewhere(s, m.t, n.t, except, h);
      }
    }
    forall h | h in except && h in n.t.content && Spoken(n.t.content[h].state, h in n.lost)
      ensures !Stale(n.t.content[h].versions, KnownStages(s, n.cfg)) && !Stale(n.t.content[h].versions, DimsStage(s, n.cfg))
    {
      assert Fresh(s, n, h);
      FreshBoth(s, n.cfg, n.t.content[h].versions);
    }
    hide Stale, KnownStages, DimsStage, Embedded, Inv, LeavesAlone, WorkOk, Fresh, LostStale, StageVersions;
    LostElsewhere(s, m, n, except);
    if m.sweptVersions {
      CurrentElsewhere(m.t, n.t, except, KnownStages(s, m.cfg), m.lost, n.lost);
    }
    if m.sweptDims {
      CurrentElsewhere(m.t, n.t, except, DimsStage(s, m.cfg), m.lost, n.lost);
    }
    assert m.prepared ==> Prepared(n) by {
      if m.prepared {
        PreparedStays(m, n, except);
      }
    }
  }

  lemma PreparedStays(m: Machine, n: Machine, except: set<Hash>)
    requires Prepared(m) && LeavesAlone(m.t, n.t, except) && n.cfg == m.cfg && n.t.current == m.t.current
    ensures Prepared(n)
  {
    hide Descriptor.Identity;
  }

  lemma FreshBoth(s: Spelling, c: Config, v: Versions)
    ensures !Stale(v, StageVersions(s, c)) <==> !Stale(v, KnownStages(s, c)) && !Stale(v, DimsStage(s, c))
  {
    var known, dims, all := KnownStages(s, c), DimsStage(s, c), StageVersions(s, c);
    assert DIMS !in known;
    assert forall k :: k in all <==> k in known || k in dims;
    assert forall k :: k in known ==> all[k] == known[k];
    assert forall k :: k in dims ==> all[k] == dims[k];
  }

  /** What a re-index stamps is current. */
  lemma MergedIsFresh(v: Versions, sv: Versions)
    ensures !Stale(Merged(v, sv), sv)
  {
  }

  /** Current stamps name this process's vector space and no other. */
  lemma StampsName(s: Spelling, c: Config, v: Versions, e: Embedder, d: nat)
    requires Injective(s) && !Stale(v, StageVersions(s, c)) && Stamped(s, v, e, d)
    ensures e == c.embedder && d == c.dims
  {
    assert EMBEDDING in StageVersions(s, c) && StageVersions(s, c)[EMBEDDING] == s.fingerprint(c.embedder);
    assert DIMS in StageVersions(s, c) && StageVersions(s, c)[DIMS] == s.decimal(c.dims);
  }

  lemma CurrentIsStamped(s: Spelling, c: Config, v: Versions)
    requires !Stale(v, StageVersions(s, c))
    ensures Stamped(s, v, c.embedder, c.dims)
  {
    var all := StageVersions(s, c);
    assert EMBEDDING in all && all[EMBEDDING] == s.fingerprint(c.embedder);
    assert DIMS in all && all[DIMS] == s.decimal(c.dims);
    assert METRIC in all && all[METRIC] == COSINE;
  }

  // ---------------------------------------------------------------------------------------
  // Each transaction

  /** What a scan's writes do to the rest of the catalog: finished rows stand, unfinished ones keep all but
      their clock, and new ones have everything before them. */
  ghost predicate OnlyAdds(t: Tables, after: Tables) {
    && after.chunks == t.chunks && after.gens == t.gens && after.current == t.current
    && (forall h :: h in after.content && after.content[h].state.Terminal() ==>
          h in t.content && after.content[h] == t.content[h])
    && (forall h :: h in t.content ==>
          h in after.content && after.content[h].state == t.content[h].state
          && after.content[h].attempts == t.content[h].attempts && after.content[h].versions == t.content[h].versions)
    && (forall h :: h in after.content && h !in t.content ==>
          after.content[h].attempts == 0 && after.content[h].state.Discovered? && after.content[h].versions == map[])
  }

  lemma OnlyAddsTwice(a: Tables, b: Tables, c: Tables)
    requires OnlyAdds(a, b) && OnlyAdds(b, c)
    ensures OnlyAdds(a, c)
  {
  }

  lemma UpsertOneAdds(t: Tables, doc: Document, now: int)
    ensures OnlyAdds(t, UpsertOne(t, doc, now))
  {
  }

  lemma {:induction false} UpsertLeavesAlone(t: Tables, docs: seq<Document>, now: int)
    ensures OnlyAdds(t, UpsertAll(t, docs, now))
    decreases |docs|
  {
    if docs != [] {
      hide OnlyAdds, UpsertOne;
      var before := UpsertAll(t, docs[..|docs| - 1], now);
      UpsertLeavesAlone(t, docs[..|docs| - 1], now);
      UpsertOneAdds(before, docs[|docs| - 1], now);
      OnlyAddsTwice(t, before, UpsertAll(t, docs, now));
    }
  }

  lemma DropContentLeavesAlone(t: Tables, doomed: set<Hash>)
    ensures LeavesAlone(t, DropContent(t, doomed), {}) && DropContent(t, doomed).current == t.current
  {
    hide Descriptor.Identity;
  }

  lemma ResetLeavesAlone(t: Tables, current: Versions)
    ensures LeavesAlone(t, ResetStaleSpec(t, current), {})
    ensures forall lost :: FinishedCurrent(ResetStaleSpec(t, current), current, lost)
  {
    hide Descriptor.Identity, Stale;
  }

  lemma EnsureLeavesAlone(t: Tables, want: Descriptor, after: Tables)
    requires Inv(t) && Ensured(t, want, after)
    ensures LeavesAlone(t, after, {})
    ensures after.current.Some? && after.current.value in after.gens
    ensures after.gens[after.current.value].desc.Identity() == want.Identity()
  {
    hide Descriptor.Identity, Inv;
  }

  lemma StripLeavesAlone(t: Tables, h: Hash)
    ensures LeavesAlone(t, Strip(t, h), {h}) && ChunkIds(Strip(t, h), h) == {}
  {
    hide Descriptor.Identity;
  }

  lemma LeavesAloneTwice(a: Tables, b: Tables, c: Tables, except: set<Hash>)
    requires LeavesAlone(a, b, except) && LeavesAlone(b, c, except)
    ensures LeavesAlone(a, c, except)
  {
    hide Descriptor.Identity;
    forall g | g in a.gens
      ensures g in c.gens && c.gens[g].desc.Identity() == a.gens[g].desc.Identity()
      ensures forall id :: id in a.gens[g].vecs && id in c.chunks && c.chunks[id].hash !in except ==> id in c.gens[g].vecs
    {
      assert g in b.gens;
    }
  }

  lemma ContentLeavesAlone(t: Tables, after: Tables, h: Hash)
    requires after == t.(content := after.content)
    requires forall k :: k in after.content && k != h ==> k in t.content && after.content[k] == t.content[k]
    ensures LeavesAlone(t, after, {h})
  {
    hide Descriptor.Identity;
  }

  lemma InsertLeavesAlone(t: Tables, h: Hash, chunks: seq<Chunk>)
    requires forall id :: id in t.chunks ==> id < t.nextId
    ensures LeavesAlone(t, InsertChunks(t, h, chunks), {h})
  {
    InsertedRows(t, h, chunks);
    hide InsertChunks, Descriptor.Identity;
  }

  lemma StoreLeavesAlone(t: Tables, h: Hash, state: State, versions: Versions, chunks: seq<Chunk>, now: int)
    requires Inv(t) && h in t.content && DistinctOrdinals(chunks)
    ensures var after := StoreChunksSpec(t, h, state, versions, chunks, now);
            && LeavesAlone(t, after, {h}) && h in after.content && after.content[h].state == state
            && after.content[h].versions == versions && after.content[h].attempts == t.content[h].attempts
            && after.current == t.current && after.content.Keys == t.content.Keys
            && ChunkIds(after, h) == Members(NewIds(t, |chunks|))
  {
    hide InsertChunks, Inv, LeavesAlone, DistinctOrdinals, Strip, ChunkIds, NewIds;
    var updated := t.(content := t.content[h := t.content[h].(state := state, versions := versions, updatedAt := now)]);
    var stripped := Strip(updated, h);
    OnlyResolve(t);
    ContentLeavesAlone(t, updated, h);
    StripLeavesAlone(updated, h);
    StrippedRows(updated, h);
    InsertedRows(stripped, h, chunks);
    InsertLeavesAlone(stripped, h, chunks);
    InsertedIds(stripped, h, chunks);
    LeavesAloneTwice(t, updated, stripped, {h});
    LeavesAloneTwice(t, stripped, InsertChunks(stripped, h, chunks), {h});
    assert NewIds(stripped, |chunks|) == NewIds(t, |chunks|) by { SameNewIds(t, stripped, |chunks|); }
  }

  lemma StrippedRows(t: Tables, h: Hash)
    ensures var stripped := Strip(t, h);
            && stripped == t.(gens := stripped.gens, chunks := stripped.chunks) && ChunkIds(stripped, h) == {}
            && forall id :: id in stripped.chunks ==> id in t.chunks
  {
  }

  lemma InsertedIds(t: Tables, h: Hash, chunks: seq<Chunk>)
    requires ChunkIds(t, h) == {} && forall id :: id in t.chunks ==> id < t.nextId
    ensures ChunkIds(InsertChunks(t, h, chunks), h) == Members(NewIds(t, |chunks|))
  {
    hide InsertChunks;
    NewIdsAre(t, |chunks|);
    InsertedRows(t, h, chunks);
    forall id | id in t.chunks ensures t.chunks[id].hash != h {
      assert id !in ChunkIds(t, h);
    }
  }

  lemma SameNewIds(t: Tables, u: Tables, n: nat)
    requires u.nextId == t.nextId
    ensures NewIds(u, n) == NewIds(t, n)
  {
  }

  lemma NewIdsAre(t: Tables, n: nat)
    ensures forall id :: id in Members(NewIds(t, n)) <==> t.nextId <= id < t.nextId + n
  {
    forall id | t.nextId <= id < t.nextId + n ensures id in Members(NewIds(t, n)) {
      assert NewIds(t, n)[id - t.nextId] == id;
    }
  }

  lemma VectorsLeaveAlone(t: Tables, ids: seq<nat>, vecs: seq<Vector>)
    requires VectorOutcomeOf(t, ids, vecs) == Stored
    ensures LeavesAlone(t, UpsertVectorsSpec(t, ids, vecs), {})
    ensures UpsertVectorsSpec(t, ids, vecs) == t.(gens := UpsertVectorsSpec(t, ids, vecs).gens)
    ensures t.current.Some? && t.current.value in t.gens ==>
              var after := UpsertVectorsSpec(t, ids, vecs);
              t.current.value in after.gens && Members(ids) <= after.gens[t.current.value].vecs.Keys
  {
    hide Descriptor.Identity, LiveIds;
    if ids != [] {
      PutVectorsKeys(t.gens[t.current.value].vecs, ids, vecs);
    }
  }

  lemma RescheduleLeavesAlone(t: Tables, h: Hash, attempts: int, at: int, now: int)
    requires Inv(t) && h in t.content
    ensures var after := RescheduleSpec(t, h, attempts, at, now);
            && Inv(after) && LeavesAlone(t, after, {}) && after.current == t.current && after.content.Keys == t.content.Keys
            && (forall k :: k in t.content ==> after.content[k].versions == t.content[k].versions)
  {
    var after := RescheduleSpec(t, h, attempts, at, now);
    CatalogProofs.StepKeepsInv(t, CatalogProofs.Op.Reschedule(h, attempts, at, now), after) by { hide Inv; }
    hide Inv, Descriptor.Identity;
  }

  lemma SetIndexedLeavesAlone(t: Tables, h: Hash, now: int)
    requires Inv(t) && h in t.content
    ensures var after := SetStateSpec(t, h, Indexed, now);
            && Inv(after) && LeavesAlone(t, after, {h}) && after.current == t.current && after.gens == t.gens
            && h in after.content && after.content[h].versions == t.content[h].versions
            && ChunkIds(after, h) == ChunkIds(t, h)
  {
    var after := SetStateSpec(t, h, Indexed, now);
    CatalogProofs.StepKeepsInv(t, CatalogProofs.Op.SetIndexed(h, now), after) by { hide Inv; }
    hide Inv, LeavesAlone;
    ContentLeavesAlone(t, after, h);
  }

  lemma MarkFailedLeavesAlone(t: Tables, h: Hash, now: int)
    requires Inv(t) && h in t.content
    ensures var after := MarkFailedSpec(t, h, now);
            && Inv(after) && LeavesAlone(t, after, {h}) && after.current == t.current
            && h in after.content && after.content[h].state == Failed && after.content[h].versions == t.content[h].versions
  {
    var marked := SetStateSpec(t, h, Failed, now);
    MarkFailedKeeps(t, h, now);
    ContentLeavesAlone(t, marked, h) by { hide LeavesAlone; }
    StripLeavesAlone(marked, h);
    hide Inv, LeavesAlone;
    LeavesAloneTwice(t, marked, MarkFailedSpec(t, h, now), {h});
  }

  // ---------------------------------------------------------------------------------------
  // Each step

  lemma OutsideStep(s: Spelling, m: Machine, op: Op, n: Machine)
    requires Healthy(s, m) && Step(s, m, op, n)
    requires op.Upsert? || op.Drop? || op.Collect?
    ensures Healthy(s, n)
  {
    hide Inv, LeavesAlone, Stale, StageVersions, KnownStages, DimsStage, Embedded, FinishedCurrent, Prepared, UpsertAll,
      DropDocuments, DropContent, Doomed, LostStale;
    match op {
      case Upsert(docs, now) =>
        UpsertAllKeeps(m.t, docs, now);
        UpsertIsAlone(m.t, docs, now);
      case Drop(paths) =>
        CatalogProofs.StepKeepsInv(m.t, CatalogProofs.Op.Drop(paths), n.t);
        DropIsAlone(m.t, paths);
      case Collect(scope, batch) =>
        CatalogProofs.StepKeepsInv(m.t, CatalogProofs.Op.Sweep(scope, batch), n.t);
        DropContentLeavesAlone(m.t, Doomed(m.t, scope, batch));
    }
    AloneKeeps(s, m, n, {});
  }

  /** New rows get new ids, so an id that died stays dead. */
  lemma DeadStays(t: Tables, tx: CatalogProofs.Op, after: Tables, ids: seq<nat>)
    requires Outside(t, tx) && CatalogProofs.Step(t, tx, after) && Dead(t, ids)
    ensures Dead(after, ids)
  {
    hide UpsertAll, Doomed, DropVectors, DistinctOrdinals;
    if tx.Upsert? {
      ChunksOfUpsert(t, tx.docs, tx.now);
    }
  }

  /** Under a second writer the chunks in hand are still the content's, which is as it was, or all dead. */
  lemma AnotherLeavesOrKills(t: Tables, tx: CatalogProofs.Op, after: Tables, h: Hash, ids: seq<nat>)
    requires Inv(t) && Outside(t, tx) && CatalogProofs.Step(t, tx, after)
    requires h in t.content && ids != [] && Members(ids) == ChunkIds(t, h)
    ensures || Dead(after, ids)
            || (Members(ids) == ChunkIds(after, h) && h in after.content && after.content[h].versions == t.content[h].versions)
  {
    hide Inv, CatalogProofs.Step, DropVectors, InsertChunks, Strip;
    assert ids[0] in Members(ids);
    assert ChunksResolve(t) by { OnlyResolve(t); }
    assert Fated(t, h, Members(ids), t);
    StepFate(t, h, Members(ids), t, tx, after);
    if Members(ids) == ChunkIds(after, h) {
      AnotherKeepsRow(t, tx, after, h, ids[0]);
    } else {
      assert forall id :: id in ids ==> id in Members(ids);
    }
  }

  lemma OnlyResolve(t: Tables)
    requires Inv(t)
    ensures ChunksResolve(t)
  {
    hide OrdinalsUnique, VectorsLive, IdentitiesUnique, FailedIsBare, DocumentsResolve;
  }

  /** A content one of whose chunks lives through the transaction keeps its stamps. */
  lemma AnotherKeepsRow(t: Tables, tx: CatalogProofs.Op, after: Tables, h: Hash, id: nat)
    requires Inv(t) && Outside(t, tx) && CatalogProofs.Step(t, tx, after) && h in t.content
    requires id in ChunkIds(t, h) && id in ChunkIds(after, h)
    ensures h in after.content && after.content[h].versions == t.content[h].versions
  {
    hide Inv, UpsertAll, StoreChunksSpec, Orphans, DistinctOrdinals, DropVectors;
    match tx
    case Upsert(docs, now) => UpsertLeavesAlone(t, docs, now);
    case Drop(_) =>
    case Sweep(scope, batch) => assert h !in Doomed(t, scope, batch);
    case StoreChunked(g, versions, chunks, now) => RechunkKeepsRow(t, g, versions, chunks, now, h, id);
  }

  lemma RechunkKeepsRow(t: Tables, g: Hash, versions: Versions, chunks: seq<Chunk>, now: int, h: Hash, id: nat)
    requires Inv(t) && h in t.content && g in t.content
    requires var after := StoreChunksSpec(t, g, Chunked, versions, chunks, now);
             id in ChunkIds(t, h) && id in ChunkIds(after, h)
    ensures var after := StoreChunksSpec(t, g, Chunked, versions, chunks, now);
            h in after.content && after.content[h].versions == t.content[h].versions
  {
    hide Inv, DropVectors, NewRow, DistinctOrdinals, LeavesAlone;
    OnlyResolve(t);
    NewIdsAre(t, |chunks|);
    if DistinctOrdinals(chunks) {
      StoreLeavesAlone(t, g, Chunked, versions, chunks, now);
    }
  }

  /** The other contents of a catalog a second writer has written. */
  lemma AnotherLeavesAlone(t: Tables, tx: CatalogProofs.Op, after: Tables) returns (except: set<Hash>)
    requires Inv(t) && Outside(t, tx) && CatalogProofs.Step(t, tx, after)
    ensures LeavesAlone(t, after, except) && after.current == t.current
    ensures forall h :: h in except && h in after.content ==> !after.content[h].state.Terminal()
  {
    hide Inv, LeavesAlone, UpsertAll, StoreChunksSpec, Doomed;
    except := {};
    match tx
    case Upsert(docs, now) => UpsertIsAlone(t, docs, now);
    case Drop(paths) => DropIsAlone(t, paths);
    case Sweep(scope, batch) => DropContentLeavesAlone(t, Doomed(t, scope, batch));
    case StoreChunked(g, versions, chunks, now) =>
      if DistinctOrdinals(chunks) {
        StoreLeavesAlone(t, g, Chunked, versions, chunks, now);
        except := {g};
      } else {
        SameIsAlone(t, after, g, versions, chunks, now);
      }
  }

  lemma UpsertIsAlone(t: Tables, docs: seq<Document>, now: int)
    ensures LeavesAlone(t, UpsertAll(t, docs, now), {}) && UpsertAll(t, docs, now).current == t.current
  {
    hide Descriptor.Identity;
    UpsertLeavesAlone(t, docs, now);
  }

  lemma DropIsAlone(t: Tables, paths: set<Path>)
    ensures LeavesAlone(t, DropDocuments(t, paths), {}) && DropDocuments(t, paths).current == t.current
  {
    hide Descriptor.Identity;
  }

  lemma SameIsAlone(t: Tables, after: Tables, g: Hash, versions: Versions, chunks: seq<Chunk>, now: int)
    requires g !in t.content || !DistinctOrdinals(chunks)
    requires after == StoreChunksSpec(t, g, Chunked, versions, chunks, now)
    ensures LeavesAlone(t, after, {}) && after.current == t.current
  {
    hide Descriptor.Identity, DistinctOrdinals;
  }

  /** What another process's transaction leaves of one row. */
  lemma AnotherRestamps(t: Tables, tx: CatalogProofs.Op, after: Tables, h: Hash)
    requires Inv(t) && Outside(t, tx) && CatalogProofs.Step(t, tx, after)
    ensures tx.Sweep? && h in Doomed(t, tx.scope, tx.batch) ==> h !in after.content
    ensures tx.StoreChunked? && tx.hash == h && DistinctOrdinals(tx.chunks) ==>
              h in after.content && after.content[h].versions == tx.versions
    ensures !(tx.Sweep? && h in Doomed(t, tx.scope, tx.batch)) && !(tx.StoreChunked? && tx.hash == h && DistinctOrdinals(tx.chunks)) ==>
              if h in t.content then h in after.content && after.content[h].versions == t.content[h].versions
              else h in after.content ==> after.content[h].versions == map[]
  {
    hide Inv, UpsertAll, Orphans, DistinctOrdinals, DropVectors, NewRow, ChunkIds;
    if tx.Upsert? {
      UpsertLeavesAlone(t, tx.docs, tx.now);
    }
  }

  lemma UnstampedIsStale(s: Spelling, c: Config)
    ensures Stale(map[], StageVersions(s, c))
  {
    assert DIMS in StageVersions(s, c);
  }

  lemma StillTold(s: Spelling, m: Machine, tx: CatalogProofs.Op, n: Machine, h: Hash)
    requires Inv(m.t) && Outside(m.t, tx) && CatalogProofs.Step(m.t, tx, n.t) && n == Disturbed(s, m, tx, n.t)
    requires !m.work.NoWork? && m.work.h == h && Told(s, m, h)
    ensures Told(s, n, h)
  {
    hide Inv, CatalogProofs.Step, Doomed, DistinctOrdinals, StageVersions, Stale;
    AnotherRestamps(m.t, tx, n.t, h);
    UnstampedIsStale(s, m.cfg);
  }

  lemma AnotherStep(s: Spelling, m: Machine, op: Op, n: Machine)
    requires Healthy(s, m) && Step(s, m, op, n) && op.Another?
    ensures Healthy(s, n)
  {
    hide Inv, LeavesAlone, Stale, StageVersions, KnownStages, DimsStage, Embedded, FinishedCurrent, Prepared,
      CatalogProofs.Step, ChunkIds, Dead, DistinctIds, Told, Undone, LostStale, Outside;
    CatalogProofs.StepKeepsInv(m.t, op.tx, n.t);
    var except := AnotherLeavesAlone(m.t, op.tx, n.t);
    AloneKeeps(s, m, n, except);
    if !m.work.NoWork? {
      StillTold(s, m, op.tx, n, m.work.h);
    }
    if m.work.Awaiting? {
      AwaitingStays(s, m, op.tx, n);
    }
  }

  lemma AwaitingStays(s: Spelling, m: Machine, tx: CatalogProofs.Op, n: Machine)
    requires Inv(m.t) && Outside(m.t, tx) && CatalogProofs.Step(m.t, tx, n.t) && n == Disturbed(s, m, tx, n.t)
    requires m.work.Awaiting? && m.work.ids != []
    requires (Fresh(s, m, m.work.h) && Members(m.work.ids) == ChunkIds(m.t, m.work.h)) || Dead(m.t, m.work.ids)
    ensures (Fresh(s, n, m.work.h) && Members(m.work.ids) == ChunkIds(n.t, m.work.h)) || Dead(n.t, m.work.ids)
  {
    hide Inv, CatalogProofs.Step, Dead, Stale, StageVersions, ChunkIds, Outside, Undone;
    var h, ids := m.work.h, m.work.ids;
    if Dead(m.t, ids) {
      DeadStays(m.t, tx, n.t, ids);
    } else {
      AnotherLeavesOrKills(m.t, tx, n.t, h, ids);
    }
  }

  lemma SweepStep(s: Spelling, m: Machine, op: Op, n: Machine)
    requires Healthy(s, m) && Step(s, m, op, n) && (op.SweepVersions? || op.SweepDims?)
    ensures Healthy(s, n)
  {
    var current := if op.SweepVersions? then KnownStages(s, m.cfg) else DimsStage(s, m.cfg);
    ResetKeeps(m.t, current);
    ResetLeavesAlone(m.t, current);
    var same := n.(sweptVersions := m.sweptVersions, sweptDims := m.sweptDims);
    assert n.t.current == m.t.current;
    assert FinishedCurrent(n.t, current, n.lost);
    hide ResetStaleSpec, LeavesAlone, Embedded, FinishedCurrent, KnownStages, DimsStage, Prepared, Inv, LostStale;
    AloneKeeps(s, m, same, {});
  }

  lemma SameRows(m: Machine, n: Machine)
    requires n.t.content == m.t.content
    ensures forall v, lost :: FinishedCurrent(m.t, v, lost) ==> FinishedCurrent(n.t, v, lost)
  {
    hide Stale;
  }

  lemma PrepareStep(s: Spelling, m: Machine, op: Op, n: Machine)
    requires Healthy(s, m) && Step(s, m, op, n) && (op.Prepare? || op.ProbePasses?)
    ensures Healthy(s, n)
  {
    hide Inv, LeavesAlone, Stale, StageVersions, KnownStages, DimsStage, FinishedCurrent, UpsertAll,
      DropDocuments, SweepTx, ResetStaleSpec, StoreChunksSpec, MarkFailedSpec, SetStateSpec, RescheduleSpec,
      UpsertVectorsSpec, VectorOutcomeOf, DistinctOrdinals, Merged, EmbeddedAt;
    hide Descriptor.Identity;
    var want := Wanted(m.cfg.embedder, m.cfg.dims);
    EnsureKeeps(m.t, want, n.t);
    EnsureLeavesAlone(m.t, want, n.t);
    SameRows(m, n);
    forall h | h in n.t.content && n.t.content[h].state.Indexed? ensures EmbeddedAt(s, n.t, h) {
      EmbeddedElsewhere(s, m.t, n.t, {}, h);
    }
  }

  /** Claiming an unfinished content loses and finishes nothing. */
  lemma ClaimKeeps(s: Spelling, m: Machine, h: Hash)
    requires Swept(s, m) && LostStale(s, m) && m.sweptDims && h in m.t.content && !m.t.content[h].state.Terminal()
    ensures Swept(s, Taken(m, h)) && LostStale(s, Taken(m, h))
  {
    hide KnownStages, DimsStage, StageVersions, Stale;
  }

  lemma ControlStep(s: Spelling, m: Machine, op: Op, n: Machine)
    requires Healthy(s, m) && Step(s, m, op, n)
    requires op.Restart? || op.Claim? || op.Stop? || op.EmbedTransient? || op.VectorsSuperseded?
    ensures Healthy(s, n)
  {
    hide Inv, Embedded, FinishedCurrent, KnownStages, DimsStage, StageVersions, Stale, DistinctIds, Dead;
    if op.Claim? {
      ClaimKeeps(s, m, op.h);
    }
  }

  lemma RescheduleStep(s: Spelling, m: Machine, op: Op, n: Machine)
    requires Healthy(s, m) && Step(s, m, op, n) && (op.Defer? || op.Charge?)
    ensures Healthy(s, n)
  {
    hide Inv, LeavesAlone, Stale, StageVersions, KnownStages, DimsStage, Embedded, FinishedCurrent, Prepared,
      UpsertAll, DropDocuments, SweepTx, ResetStaleSpec, Ensured, StoreChunksSpec, MarkFailedSpec,
      SetStateSpec, RescheduleSpec, UpsertVectorsSpec, VectorOutcomeOf, DistinctOrdinals, Merged, EmbeddedAt,
      ChunkIds;
    var h := m.work.h;
    var attempts := if op.Defer? then RowOf(m).attempts else m.claimed + 1;
    RescheduleLeavesAlone(m.t, h, attempts, op.at, op.now);
    AloneKeeps(s, m, n, {});
  }

  lemma StoreStep(s: Spelling, m: Machine, op: Op, n: Machine)
    requires Healthy(s, m) && Step(s, m, op, n) && (op.StoreChunks? || op.Undecodable? || op.Poison?)
    ensures Healthy(s, n)
  {
    hide Inv, LeavesAlone, Stale, StageVersions, KnownStages, DimsStage, Embedded, FinishedCurrent, UpsertAll,
      DropDocuments, SweepTx, ResetStaleSpec, Ensured, StoreChunksSpec, MarkFailedSpec, SetStateSpec, RescheduleSpec,
      UpsertVectorsSpec, VectorOutcomeOf, Merged, EmbeddedAt;
    var h, versions := m.work.h, if op.Poison? then op.versions else NewVersions(s, m);
    var chunks := if op.StoreChunks? then op.chunks else [];
    var state := if op.StoreChunks? then Chunked else Failed;
    StoreChunksKeeps(m.t, h, state, versions, chunks, op.now);
    StoreLeavesAlone(m.t, h, state, versions, chunks, op.now);
    MergedIsFresh(RowOf(m).versions, StageVersions(s, m.cfg));
    NewIdsAre(m.t, |chunks|);
    NewIdsMembers(m.t, |chunks|);
    assert Fresh(s, n, h);
    AloneKeeps(s, m, n, {h});
  }

  /** A write that goes through finds the chunks it was embedded from. */
  lemma DeadIsNotStored(t: Tables, ids: seq<nat>, vecs: seq<Vector>)
    requires ids != [] && Dead(t, ids)
    ensures VectorOutcomeOf(t, ids, vecs) != Stored && LiveIds(t, ids) == {}
  {
    assert forall id :: id in ids ==> id !in t.chunks;
    assert LiveIds(t, ids) == {};
  }

  lemma VectorsKeepChunks(t: Tables, ids: seq<nat>, vecs: seq<Vector>, h: Hash)
    ensures ChunkIds(UpsertVectorsSpec(t, ids, vecs), h) == ChunkIds(t, h)
  {
    hide VectorOutcomeOf, PutVectors;
  }

  lemma VectorStep(s: Spelling, m: Machine, op: Op, n: Machine)
    requires Healthy(s, m) && Step(s, m, op, n) && op.StoreVectors?
    ensures Healthy(s, n)
  {
    hide Inv, LeavesAlone, Stale, UpsertVectorsSpec, VectorOutcomeOf, Dead, Told, LostStale, Embedded, FinishedCurrent,
      StageVersions, KnownStages, DimsStage, ChunkIds, DistinctIds;
    VectorsKeep(m.t, m.work.ids, op.vecs);
    VectorsLeaveAlone(m.t, m.work.ids, op.vecs);
    assert !Dead(m.t, m.work.ids) by {
      if Dead(m.t, m.work.ids) { DeadIsNotStored(m.t, m.work.ids, op.vecs); }
    }
    VectorsKeepChunks(m.t, m.work.ids, op.vecs, m.work.h);
    AloneKeeps(s, m, n, {});
  }

  lemma FailStep(s: Spelling, m: Machine, op: Op, n: Machine)
    requires Healthy(s, m) && Step(s, m, op, n) && op.MarkFailed?
    ensures Healthy(s, n)
  {
    hide Inv, LeavesAlone, Stale, StageVersions, KnownStages, DimsStage, Embedded, FinishedCurrent, Prepared,
      UpsertAll, DropDocuments, SweepTx, ResetStaleSpec, Ensured, StoreChunksSpec, MarkFailedSpec,
      SetStateSpec, RescheduleSpec, UpsertVectorsSpec, VectorOutcomeOf, DistinctOrdinals, Merged, EmbeddedAt,
      ChunkIds;
    var h := m.work.h;
    MarkFailedLeavesAlone(m.t, h, op.now);
    AloneKeeps(s, m, n, {h});
  }

  /** The step that makes content searchable: its chunks are all in the current generation. */
  lemma IndexStep(s: Spelling, m: Machine, op: Op, n: Machine)
    requires Injective(s) && Healthy(s, m) && Step(s, m, op, n) && op.SetIndexed?
    ensures Healthy(s, n)
  {
    hide Inv, LeavesAlone, Stale, StageVersions, KnownStages, DimsStage, Stamped, Descriptor.Identity, SetStateSpec, Embedded,
      LostStale, FinishedCurrent, Injective;
    var h := m.work.h;
    SetIndexedLeavesAlone(m.t, h, op.now);
    var v := n.t.content[h].versions;
    forall id, e, d | id in ChunkIds(n.t, h) && Stamped(s, v, e, d) ensures HasVector(n.t, id, e, d) {
      StampsName(s, m.cfg, v, e, d);
      assert id in n.t.gens[n.t.current.value].vecs;
    }
    assert EmbeddedAt(s, n.t, h);
    assert Fresh(s, n, h);
    AloneKeeps(s, m, n, {h});
  }

  lemma StepKeepsHealthy(s: Spelling, m: Machine, op: Op, n: Machine)
    requires Injective(s) && Healthy(s, m) && Step(s, m, op, n)
    ensures Healthy(s, n)
  {
    hide Injective, Healthy, Step;
    match op
    case Upsert(_, _) => OutsideStep(s, m, op, n);
    case Drop(_) => OutsideStep(s, m, op, n);
    case Collect(_, _) => OutsideStep(s, m, op, n);
    case Another(_) => AnotherStep(s, m, op, n);
    case SweepVersions => SweepStep(s, m, op, n);
    case SweepDims => SweepStep(s, m, op, n);
    case Prepare => PrepareStep(s, m, op, n);
    case ProbePasses => PrepareStep(s, m, op, n);
    case Defer(_, _) => RescheduleStep(s, m, op, n);
    case Charge(_, _) => RescheduleStep(s, m, op, n);
    case StoreChunks(_, _) => StoreStep(s, m, op, n);
    case Undecodable(_) => StoreStep(s, m, op, n);
    case Poison(_, _) => StoreStep(s, m, op, n);
    case StoreVectors(_) => VectorStep(s, m, op, n);
    case MarkFailed(_) => FailStep(s, m, op, n);
    case SetIndexed(_) => IndexStep(s, m, op, n);
    case _ => ControlStep(s, m, op, n);
  }

  lemma {:induction false} EveryStateIsHealthy(s: Spelling, states: seq<Machine>, ops: seq<Op>, cfg: Config)
    requires Injective(s) && Run(s, states, ops) && states[0] == Boot(cfg)
    ensures forall i :: 0 <= i < |states| ==> Healthy(s, states[i])
    decreases |ops|
  {
    hide Step, Injective;
    if ops == [] {
      assert Healthy(s, Boot(cfg));
    } else {
      hide Healthy;
      var n := |ops| - 1;
      assert Run(s, states[..n + 1], ops[..n]);
      EveryStateIsHealthy(s, states[..n + 1], ops[..n], cfg);
      assert Healthy(s, states[..n + 1][n]);
      StepKeepsHealthy(s, states[n], ops[n], states[n + 1]);
    }
  }

  /** What the sweeps and the pipeline are for: the current generation is this process's; everything
      indexed carries its stage versions and has a vector in that generation for each of its chunks; and
      what failed carries them too, but for exactly the lost. */
  ghost predicate Whole(s: Spelling, m: Machine) {
    && Prepared(m)
    && (forall h :: h in m.t.content && m.t.content[h].state.Indexed? ==>
          !Stale(m.t.content[h].versions, StageVersions(s, m.cfg)))
    && (forall h :: h in m.t.content && m.t.content[h].state.Failed? ==>
          (Stale(m.t.content[h].versions, StageVersions(s, m.cfg)) <==> h in m.lost))
    && (forall id :: id in m.t.chunks ==>
          && m.t.chunks[id].hash in m.t.content
          && (m.t.content[m.t.chunks[id].hash].state.Indexed? ==> id in m.t.gens[m.t.current.value].vecs))
  }

  lemma SweptIsWhole(s: Spelling, m: Machine)
    requires Healthy(s, m) && m.sweptVersions && m.sweptDims
    ensures Whole(s, m)
  {
    forall h | h in m.t.content && Spoken(m.t.content[h].state, h in m.lost)
      ensures !Stale(m.t.content[h].versions, StageVersions(s, m.cfg))
    {
      hide Stale, KnownStages, DimsStage, StageVersions, Inv, Embedded;
      FreshBoth(s, m.cfg, m.t.content[h].versions);
    }
    hide Stale, KnownStages, DimsStage, StageVersions, WorkOk;
    assert ChunksResolve(m.t);
    forall id | id in m.t.chunks && m.t.content[m.t.chunks[id].hash].state.Indexed?
      ensures id in m.t.gens[m.t.current.value].vecs
    {
      hide Inv;
      var h := m.t.chunks[id].hash;
      assert id in ChunkIds(m.t, h) && EmbeddedAt(s, m.t, h);
      CurrentIsStamped(s, m.cfg, m.t.content[h].versions);
      assert HasVector(m.t, id, m.cfg.embedder, m.cfg.dims);
    }
  }

  /** No stale or half-embedded index. Whatever processes came before, under whatever models and
      dimensions, crashes included, and whatever scan, sweep or re-chunk another process commits meanwhile:
      once this process's two sweeps are done, and for the rest of its life, the index is whole. */
  lemma NoStaleOrHalfEmbeddedIndex(s: Spelling, states: seq<Machine>, ops: seq<Op>, cfg: Config, i: nat)
    requires Injective(s) && Run(s, states, ops) && states[0] == Boot(cfg) && i < |states|
    requires states[i].sweptVersions && states[i].sweptDims
    ensures Whole(s, states[i])
  {
    hide Healthy, Whole, Step;
    EveryStateIsHealthy(s, states, ops, cfg);
    SweptIsWhole(s, states[i]);
  }

  // ---------------------------------------------------------------------------------------
  // A second writer

  /** Between the chunks and their vectors: the write is refused as superseded exactly when another process
      has rewritten or swept the content in the meantime, so that every chunk it embedded is gone. */
  lemma SupersededIffRewritten(s: Spelling, m: Machine, vecs: seq<Vector>)
    requires Healthy(s, m) && m.work.Awaiting? && |vecs| == |m.work.ids|
    ensures VectorOutcomeOf(m.t, m.work.ids, vecs) == VectorOutcome.Superseded <==> Dead(m.t, m.work.ids)
    ensures VectorOutcomeOf(m.t, m.work.ids, vecs) == VectorOutcome.Superseded ==> !m.alone
  {
    var ids := m.work.ids;
    assert m.t.current.Some? && m.t.current.value in m.t.gens;
    hide Inv, Embedded, FinishedCurrent, KnownStages, DimsStage, StageVersions, Stale;
    assert ids[0] in Members(ids);
    if Dead(m.t, ids) {
      DeadIsNotStored(m.t, ids, vecs);
    } else {
      assert forall id :: id in ids ==> id in Members(ids);
      assert LiveIds(m.t, ids) == Members(ids);
      DistinctSize(ids);
    }
  }

  lemma {:induction false} AloneUnlessAnother(s: Spelling, states: seq<Machine>, ops: seq<Op>, cfg: Config, i: nat)
    requires Run(s, states, ops) && states[0] == Boot(cfg) && i < |states| && !states[i].alone
    ensures exists j :: 0 <= j < i && ops[j].Another? && forall k :: j < k < i ==> !ops[k].Restart?
  {
    hide Step;
    assert i > 0;
    assert Step(s, states[i - 1], ops[i - 1], states[i - 1 + 1]);
    StepMovesClaim(s, states[i - 1], ops[i - 1], states[i]);
    if !ops[i - 1].Another? {
      AloneUnlessAnother(s, states, ops, cfg, i - 1);
    }
  }

  /** A superseded write means that the single-writer rule was broken since this process started. */
  lemma SupersededMeansAnotherWriter(s: Spelling, states: seq<Machine>, ops: seq<Op>, cfg: Config, i: nat)
    requires Injective(s) && Run(s, states, ops) && states[0] == Boot(cfg) && i < |ops| && ops[i].VectorsSuperseded?
    ensures exists j :: 0 <= j < i && ops[j].Another? && forall k :: j < k < i ==> !ops[k].Restart?
  {
    EveryStateIsHealthy(s, states, ops, cfg);
    assert Healthy(s, states[i]) && Step(s, states[i], ops[i], states[i + 1]);
    hide Healthy;
    SupersededIffRewritten(s, states[i], ops[i].vecs) by { LengthsAgree(states[i].t, states[i].work.ids, ops[i].vecs); }
    AloneUnlessAnother(s, states, ops, cfg, i);
  }

  lemma LengthsAgree(t: Tables, ids: seq<nat>, vecs: seq<Vector>)
    requires VectorOutcomeOf(t, ids, vecs) == VectorOutcome.Superseded
    ensures |vecs| == |ids|
  {
  }

  /** The content in hand, chunked afresh by another process. */
  function Rechunked(s: Spelling, m: Machine, versions: Versions, chunks: seq<Chunk>, now: int): Machine
    requires !m.work.NoWork?
  {
    Disturbed(s, m, CatalogProofs.Op.StoreChunked(m.work.h, versions, chunks, now),
              StoreChunksSpec(m.t, m.work.h, Chunked, versions, chunks, now))
  }

  lemma RechunkIsStep(s: Spelling, m: Machine, versions: Versions, chunks: seq<Chunk>, now: int)
    requires m.work.Awaiting? && m.work.h in m.t.content && !RowOf(m).state.Terminal()
    ensures Step(s, m, Another(CatalogProofs.Op.StoreChunked(m.work.h, versions, chunks, now)),
                 Rechunked(s, m, versions, chunks, now))
  {
    hide StoreChunksSpec, Undone;
  }

  lemma HealthyAwaiting(s: Spelling, m: Machine)
    requires Healthy(s, m) && m.work.Awaiting?
    ensures Inv(m.t) && (Members(m.work.ids) == ChunkIds(m.t, m.work.h) || Dead(m.t, m.work.ids))
  {
    hide Inv, Embedded, Swept, Fresh;
  }

  /** And it does happen: a content chunked afresh by another process while its embedding is awaited. */
  lemma RechunkSupersedes(s: Spelling, m: Machine, versions: Versions, chunks: seq<Chunk>, now: int, vecs: seq<Vector>)
    requires Healthy(s, m) && m.work.Awaiting? && m.work.h in m.t.content && !RowOf(m).state.Terminal()
    requires DistinctOrdinals(chunks) && |vecs| == |m.work.ids|
    ensures var tx := CatalogProofs.Op.StoreChunked(m.work.h, versions, chunks, now);
            var n := Rechunked(s, m, versions, chunks, now);
            && Step(s, m, Another(tx), n)
            && Step(s, n, VectorsSuperseded(vecs), n.(work := Charging(m.work.h)))
  {
    hide Healthy, Dead, StoreChunksSpec, Step, VectorOutcomeOf, Inv, DistinctOrdinals, Undone;
    var h, ids := m.work.h, m.work.ids;
    var n := Rechunked(s, m, versions, chunks, now);
    RechunkIsStep(s, m, versions, chunks, now);
    AnotherStep(s, m, Another(CatalogProofs.Op.StoreChunked(h, versions, chunks, now)), n);
    HealthyAwaiting(s, m);
    RechunkKills(m.t, h, ids, versions, chunks, now);
    SupersededIffRewritten(s, n, vecs);
    SupersededIsStep(s, n, vecs);
  }

  lemma SupersededIsStep(s: Spelling, m: Machine, vecs: seq<Vector>)
    requires m.work.Awaiting? && VectorOutcomeOf(m.t, m.work.ids, vecs) == VectorOutcome.Superseded
    ensures Step(s, m, VectorsSuperseded(vecs), m.(work := Charging(m.work.h)))
  {
    hide VectorOutcomeOf;
  }

  lemma RechunkKills(t: Tables, h: Hash, ids: seq<nat>, versions: Versions, chunks: seq<Chunk>, now: int)
    requires Inv(t) && h in t.content && !t.content[h].state.Terminal() && DistinctOrdinals(chunks)
    requires Members(ids) == ChunkIds(t, h) || Dead(t, ids)
    ensures Dead(StoreChunksSpec(t, h, Chunked, versions, chunks, now), ids)
  {
    var tx := CatalogProofs.Op.StoreChunked(h, versions, chunks, now);
    var after := StoreChunksSpec(t, h, Chunked, versions, chunks, now);
    if Dead(t, ids) {
      DeadStays(t, tx, after, ids);
    } else {
      OnlyResolve(t);
      StoreLeavesAlone(t, h, Chunked, versions, chunks, now);
      NewIdsAre(t, |chunks|);
      var updated := t.(content := t.content[h := t.content[h].(state := Chunked, versions := versions, updatedAt := now)]);
      InsertedRows(Strip(updated, h), h, chunks);
      hide InsertChunks, Inv, DistinctOrdinals, LeavesAlone;
      forall id | id in ids ensures id !in after.chunks && id < after.nextId {
        assert id in Members(ids);
      }
    }
  }

  // ---------------------------------------------------------------------------------------
  // Which failures are stale

  /** From the chunks on, the content whose fate is undecided. */
  predicate Pending(work: Work, h: Hash) {
    (work.Awaiting? || work.Probing? || work.Charging? || work.GivingUp?) && work.h == h
  }

  predicate Rechunks(m: Machine, tx: CatalogProofs.Op, h: Hash) {
    tx.StoreChunked? && tx.hash == h && DistinctOrdinals(tx.chunks)
  }

  /** Another process's transaction takes the stamps of h: it sweeps its row away, or chunks it afresh under
      other stages. */
  predicate Unstamps(s: Spelling, m: Machine, tx: CatalogProofs.Op, h: Hash) {
    || (tx.Sweep? && h in Doomed(m.t, tx.scope, tx.batch))
    || (Rechunks(m, tx, h) && Stale(tx.versions, StageVersions(s, m.cfg)))
  }

  /** Another process's transaction chunks h afresh under this process's own stages. */
  predicate Restamps(s: Spelling, m: Machine, tx: CatalogProofs.Op, h: Hash) {
    Rechunks(m, tx, h) && !Stale(tx.versions, StageVersions(s, m.cfg))
  }

  /** At step k another process takes the stamps of h, which is pending; nobody puts them back; and at step g
      this process gives h up. */
  ghost predicate GivenUpUnstamped(s: Spelling, states: seq<Machine>, ops: seq<Op>, h: Hash, k: nat, g: nat)
    requires |states| == |ops| + 1
  {
    && k < g < |ops| && ops[k].Another? && Unstamps(s, states[k], ops[k].tx, h)
    && (forall j :: k <= j <= g ==> Pending(states[j].work, h))
    && (forall j :: k < j < g && ops[j].Another? ==> !Restamps(s, states[j], ops[j].tx, h))
    && ops[g].MarkFailed?
  }

  /** Since step g this process has gone on, and not taken h up again. */
  ghost predicate NotTakenUp(ops: seq<Op>, h: Hash, g: nat, i: nat)
    requires i <= |ops|
  {
    forall j :: g < j < i ==> !ops[j].Restart? && ops[j] != Claim(h)
  }

  /** One step's part in what is told of a pending content, and in what is lost. */
  lemma StepTells(s: Spelling, m: Machine, op: Op, n: Machine, h: Hash)
    requires Step(s, m, op, n)
    ensures Pending(n.work, h) && op.Another? ==>
              Pending(m.work, h) && n.rewritten == (Unstamps(s, m, op.tx, h) || (m.rewritten && !Restamps(s, m, op.tx, h)))
    ensures Pending(n.work, h) && !op.Another? && !op.StoreChunks? ==> Pending(m.work, h) && n.rewritten == m.rewritten
    ensures op.StoreChunks? ==> !n.rewritten
    ensures h in n.lost <==>
              if op.MarkFailed? && Pending(m.work, h) && m.rewritten then true
              else h in m.lost && !op.Restart? && op != Claim(h)
  {
    hide UpsertAll, DropDocuments, SweepTx, ResetStaleSpec, Ensured, StoreChunksSpec, MarkFailedSpec, SetStateSpec,
      RescheduleSpec, UpsertVectorsSpec, VectorOutcomeOf, DistinctOrdinals, StageVersions, KnownStages, DimsStage,
      CatalogProofs.Step, Doomed, Stale, Merged;
  }

  /** A pending content that is told rewritten was unstamped by another process, the last to restamp it. */
  lemma {:induction false} RewrittenWasUnstamped(s: Spelling, states: seq<Machine>, ops: seq<Op>, cfg: Config, h: Hash, g: nat)
    returns (k: nat)
    requires Run(s, states, ops) && states[0] == Boot(cfg) && g < |states|
    requires Pending(states[g].work, h) && states[g].rewritten
    ensures k < g && ops[k].Another? && Unstamps(s, states[k], ops[k].tx, h)
    ensures forall j :: k <= j <= g ==> Pending(states[j].work, h)
    ensures forall j :: k < j < g && ops[j].Another? ==> !Restamps(s, states[j], ops[j].tx, h)
    decreases g
  {
    hide Step, Unstamps, Restamps;
    assert g > 0;
    assert Step(s, states[g - 1], ops[g - 1], states[g - 1 + 1]);
    StepTells(s, states[g - 1], ops[g - 1], states[g], h);
    if ops[g - 1].Another? && Unstamps(s, states[g - 1], ops[g - 1].tx, h) {
      k := g - 1;
    } else {
      k := RewrittenWasUnstamped(s, states, ops, cfg, h, g - 1);
    }
  }

  /** And one unstamped, with nobody to restamp it, is told rewritten. */
  lemma {:induction false} UnstampedIsRewritten(s: Spelling, states: seq<Machine>, ops: seq<Op>, h: Hash, k: nat, g: nat)
    requires Run(s, states, ops) && k < g < |states|
    requires ops[k].Another? && Unstamps(s, states[k], ops[k].tx, h)
    requires forall j :: k <= j <= g ==> Pending(states[j].work, h)
    requires forall j :: k < j < g && ops[j].Another? ==> !Restamps(s, states[j], ops[j].tx, h)
    ensures states[g].rewritten
    decreases g
  {
    hide Step, Unstamps, Restamps;
    assert Step(s, states[g - 1], ops[g - 1], states[g - 1 + 1]);
    StepTells(s, states[g - 1], ops[g - 1], states[g], h);
    if g - 1 > k {
      UnstampedIsRewritten(s, states, ops, h, k, g - 1);
      ChunkingIsFirst(s, states[g - 1], ops[g - 1], states[g], h);
    }
  }

  lemma ChunkingIsFirst(s: Spelling, m: Machine, op: Op, n: Machine, h: Hash)
    requires Step(s, m, op, n) && Pending(m.work, h)
    ensures !op.StoreChunks?
  {
  }

  lemma {:induction false} LostWasUnstamped(s: Spelling, states: seq<Machine>, ops: seq<Op>, cfg: Config, h: Hash, i: nat)
    returns (k: nat, g: nat)
    requires Run(s, states, ops) && states[0] == Boot(cfg) && i < |states| && h in states[i].lost
    ensures g < i && GivenUpUnstamped(s, states, ops, h, k, g) && NotTakenUp(ops, h, g, i)
    decreases i
  {
    hide Step, Unstamps, Restamps;
    assert i > 0;
    assert Step(s, states[i - 1], ops[i - 1], states[i - 1 + 1]);
    StepTells(s, states[i - 1], ops[i - 1], states[i], h);
    if ops[i - 1].MarkFailed? && Pending(states[i - 1].work, h) && states[i - 1].rewritten {
      g := i - 1;
      k := RewrittenWasUnstamped(s, states, ops, cfg, h, g);
    } else {
      k, g := LostWasUnstamped(s, states, ops, cfg, h, i - 1);
    }
  }

  lemma {:induction false} UnstampedIsLost(s: Spelling, states: seq<Machine>, ops: seq<Op>, h: Hash, k: nat, g: nat, i: nat)
    requires Run(s, states, ops) && g < i < |states|
    requires GivenUpUnstamped(s, states, ops, h, k, g) && NotTakenUp(ops, h, g, i)
    ensures h in states[i].lost
    decreases i
  {
    hide Step, Unstamps, Restamps;
    assert Step(s, states[i - 1], ops[i - 1], states[i - 1 + 1]);
    StepTells(s, states[i - 1], ops[i - 1], states[i], h);
    if i - 1 == g {
      UnstampedIsRewritten(s, states, ops, h, k, g);
    } else {
      UnstampedIsLost(s, states, ops, h, k, g, i - 1);
    }
  }

  /** Exactly which failed contents stand under stale stamps, once a process has done its sweeps: those that it
      gave up on, after another process had swept the row away or chunked it afresh under other stages while the
      embedding was awaited or the endpoint probed, and nobody had chunked it under this process's stages since. */
  lemma StaleFailureIffUnstamped(s: Spelling, states: seq<Machine>, ops: seq<Op>, cfg: Config, i: nat, h: Hash)
    requires Injective(s) && Run(s, states, ops) && states[0] == Boot(cfg) && i < |states|
    requires states[i].sweptVersions && states[i].sweptDims
    requires h in states[i].t.content && states[i].t.content[h].state.Failed?
    ensures Stale(states[i].t.content[h].versions, StageVersions(s, states[i].cfg))
       <==> exists k: nat, g: nat :: g < i && GivenUpUnstamped(s, states, ops, h, k, g) && NotTakenUp(ops, h, g, i)
  {
    hide Step, Stale, GivenUpUnstamped, NotTakenUp, Injective;
    NoStaleOrHalfEmbeddedIndex(s, states, ops, cfg, i);
    if h in states[i].lost {
      var k, g := LostWasUnstamped(s, states, ops, cfg, h, i);
    }
    if k: nat, g: nat :| g < i && GivenUpUnstamped(s, states, ops, h, k, g) && NotTakenUp(ops, h, g, i) {
      UnstampedIsLost(s, states, ops, h, k, g, i);
    }
  }

  // ---------------------------------------------------------------------------------------
  // And there are such failures

  lemma RunOne(s: Spelling, m: Machine, op: Op, n: Machine)
    requires Step(s, m, op, n)
    ensures Run(s, [m, n], [op])
  {
    hide Step;
  }

  lemma RunsJoin(s: Spelling, a: seq<Machine>, x: seq<Op>, b: seq<Machine>, y: seq<Op>)
    requires Run(s, a, x) && Run(s, b, y) && a[|x|] == b[0]
    ensures Run(s, a + b[1..], x + y) && (a + b[1..])[0] == a[0] && (a + b[1..])[|x + y|] == b[|y|]
  {
    hide Step;
    var states, ops := a + b[1..], x + y;
    forall i | 0 <= i < |ops| ensures Step(s, states[i], ops[i], states[i + 1]) {
      if i < |x| {
        assert Step(s, a[i], x[i], a[i + 1]);
      } else {
        assert Step(s, b[i - |x|], y[i - |x|], b[i - |x| + 1]);
      }
    }
  }

  /** After a superseded write at the cap the attempt is charged, and the content failed, whatever its row
      carries. */
  lemma SupersededAtCap(s: Spelling, m: Machine, vecs: seq<Vector>, at: int, now: int)
    returns (states: seq<Machine>, ops: seq<Op>)
    requires m.work.Awaiting? && VectorOutcomeOf(m.t, m.work.ids, vecs) == VectorOutcome.Superseded
    requires m.work.h in m.t.content && m.claimed + 1 >= m.cfg.maxAttempts
    ensures Run(s, states, ops) && states[0] == m && |ops| == 3
    ensures var n, h := states[3], m.work.h;
            && n.work.NoWork? && n.cfg == m.cfg && n.sweptVersions == m.sweptVersions && n.sweptDims == m.sweptDims
            && h in n.t.content && n.t.content[h].state.Failed? && n.t.content[h].versions == m.t.content[h].versions
  {
    hide VectorOutcomeOf, MarkFailedSpec, RescheduleSpec;
    var h := m.work.h;
    var charging := m.(work := Charging(h));
    var given := With(charging, RescheduleSpec(m.t, h, m.claimed + 1, at, now), GivingUp(h));
    var buried := Buried(given, MarkFailedSpec(given.t, h, now));
    GivenUpRow(m.t, h, m.claimed + 1, at, now);
    states := [m, charging, given, buried];
    ops := [VectorsSuperseded(vecs), Charge(at, now), Op.MarkFailed(now)];
    assert Step(s, m, ops[0], charging) && Step(s, charging, ops[1], given) && Step(s, given, ops[2], buried);
  }

  lemma GivenUpRow(t: Tables, h: Hash, attempts: int, at: int, now: int)
    requires h in t.content
    ensures var after := MarkFailedSpec(RescheduleSpec(t, h, attempts, at, now), h, now);
            h in after.content && after.content[h].state.Failed? && after.content[h].versions == t.content[h].versions
  {
  }

  /** First: another process chunks the content afresh, under other stages, during its last attempt. */
  lemma RechunkedThenFailedStale(s: Spelling, m: Machine, versions: Versions, vecs: seq<Vector>, at: int, now: int)
    returns (states: seq<Machine>, ops: seq<Op>)
    requires Healthy(s, m) && m.work.Awaiting? && m.work.h in m.t.content && !RowOf(m).state.Terminal()
    requires m.claimed + 1 >= m.cfg.maxAttempts && |vecs| == |m.work.ids| && Stale(versions, StageVersions(s, m.cfg))
    ensures Run(s, states, ops) && states[0] == m && |ops| == 4
    ensures FailedStale(s, m, states[4])
  {
    hide Healthy, StoreChunksSpec, Step, VectorOutcomeOf, Undone, Stale, StageVersions;
    var n := Rechunked(s, m, versions, [], now);
    RechunkSupersedes(s, m, versions, [], now, vecs);
    RechunkIsStep(s, m, versions, [], now);
    SupersedesMeans(s, n, vecs);
    RechunkStamps(m.t, m.work.h, versions, now);
    var rest, ys := SupersededAtCap(s, n, vecs, at, now);
    var op := Another(CatalogProofs.Op.StoreChunked(m.work.h, versions, [], now));
    RunOne(s, m, op, n);
    RunsJoin(s, [m, n], [op], rest, ys);
    states, ops := [m, n] + rest[1..], [op] + ys;
  }

  /** The same process, later: the content it had in hand stands failed, under stale stamps. */
  ghost predicate FailedStale(s: Spelling, m: Machine, n: Machine)
    requires !m.work.NoWork?
  {
    && n.cfg == m.cfg && n.sweptVersions == m.sweptVersions && n.sweptDims == m.sweptDims
    && m.work.h in n.t.content && n.t.content[m.work.h].state.Failed?
    && Stale(n.t.content[m.work.h].versions, StageVersions(s, n.cfg))
  }

  lemma SupersedesMeans(s: Spelling, m: Machine, vecs: seq<Vector>)
    requires m.work.Awaiting? && Step(s, m, VectorsSuperseded(vecs), m.(work := Charging(m.work.h)))
    ensures VectorOutcomeOf(m.t, m.work.ids, vecs) == VectorOutcome.Superseded
  {
    hide VectorOutcomeOf;
  }

  lemma RechunkStamps(t: Tables, h: Hash, versions: Versions, now: int)
    requires h in t.content
    ensures var after := StoreChunksSpec(t, h, Chunked, versions, [], now);
            h in after.content && after.content[h].versions == versions
  {
  }

  /** Second: the content's last file is deleted, its row swept, and the file put back, all by another process
      during its last attempt. */
  lemma SweptThenFailedStale(s: Spelling, m: Machine, p: Path, size: int, mtime: int, vecs: seq<Vector>, at: int, now: int)
    returns (states: seq<Machine>, ops: seq<Op>)
    requires Healthy(s, m) && m.work.Awaiting? && m.work.h in m.t.content && !RowOf(m).state.Terminal()
    requires m.claimed + 1 >= m.cfg.maxAttempts && |vecs| == |m.work.ids|
    ensures Run(s, states, ops) && states[0] == m && |ops| == 6
    ensures FailedStale(s, m, states[6])
  {
    hide Healthy, Step, VectorOutcomeOf, Undone, Stale, StageVersions, UpsertAll, SweepTx, CatalogProofs.Step, Outside, Inv, Dead;
    var h := m.work.h;
    var drop := CatalogProofs.Op.Drop(PathsWith(m.t, h));
    var sweep := CatalogProofs.Op.Sweep(QueueScope, {h});
    var back := CatalogProofs.Op.Upsert([Document(p, Row(Read(h), size, mtime))], now);
    var a := Disturbed(s, m, drop, DropDocuments(m.t, PathsWith(m.t, h)));
    var b := Disturbed(s, a, sweep, SweepTx(a.t, QueueScope, {h}));
    var c := Disturbed(s, b, back, UpsertAll(b.t, [Document(p, Row(Read(h), size, mtime))], now));
    OutsideSteps(s, m, h, a, b, c, drop, sweep, back);
    StepKeepsHealthyAnother(s, m, drop, a);
    StepKeepsHealthyAnother(s, a, sweep, b);
    StepKeepsHealthyAnother(s, b, back, c);
    SweptAndBack(m.t, h, p, size, mtime, now);
    HealthyAwaiting(s, c);
    DeadOnceUnchunked(s, c, vecs);
    UnstampedIsStale(s, m.cfg);
    var rest, ys := SupersededAtCap(s, c, vecs, at, now);
    RunOne(s, m, Another(drop), a);
    RunOne(s, a, Another(sweep), b);
    RunOne(s, b, Another(back), c);
    RunsJoin(s, [m, a], [Another(drop)], [a, b], [Another(sweep)]);
    assert [m, a] + [a, b][1..] == [m, a, b] && [Another(drop)] + [Another(sweep)] == [Another(drop), Another(sweep)];
    RunsJoin(s, [m, a, b], [Another(drop), Another(sweep)], [b, c], [Another(back)]);
    assert [m, a, b] + [b, c][1..] == [m, a, b, c];
    assert [Another(drop), Another(sweep)] + [Another(back)] == [Another(drop), Another(sweep), Another(back)];
    RunsJoin(s, [m, a, b, c], [Another(drop), Another(sweep), Another(back)], rest, ys);
    states, ops := [m, a, b, c] + rest[1..], [Another(drop), Another(sweep), Another(back)] + ys;
  }

  function PathsWith(t: Tables, h: Hash): set<Path> {
    set p | p in t.documents && t.documents[p].source == Read(h)
  }

  lemma OutsideSteps(s: Spelling, m: Machine, h: Hash, a: Machine, b: Machine, c: Machine,
                     drop: CatalogProofs.Op, sweep: CatalogProofs.Op, back: CatalogProofs.Op)
    requires m.work.Awaiting? && drop.Drop? && sweep.Sweep? && back.Upsert?
    requires a == Disturbed(s, m, drop, DropDocuments(m.t, drop.paths))
    requires b == Disturbed(s, a, sweep, SweepTx(a.t, sweep.scope, sweep.batch))
    requires c == Disturbed(s, b, back, UpsertAll(b.t, back.docs, back.now))
    ensures Step(s, m, Another(drop), a) && Step(s, a, Another(sweep), b) && Step(s, b, Another(back), c)
  {
    hide UpsertAll, SweepTx, Undone;
  }

  lemma StepKeepsHealthyAnother(s: Spelling, m: Machine, tx: CatalogProofs.Op, n: Machine)
    requires Healthy(s, m) && Step(s, m, Another(tx), n)
    ensures Healthy(s, n)
  {
    hide Healthy, Step;
    AnotherStep(s, m, Another(tx), n);
  }

  /** A row swept away and put back is a new row, without stamps or chunks. */
  lemma SweptAndBack(t: Tables, h: Hash, p: Path, size: int, mtime: int, now: int)
    requires h in t.content && !t.content[h].state.Terminal()
    ensures var swept := SweepTx(DropDocuments(t, PathsWith(t, h)), QueueScope, {h});
            var after := UpsertAll(swept, [Document(p, Row(Read(h), size, mtime))], now);
            h in after.content && after.content[h].versions == map[] && ChunkIds(after, h) == {}
  {
    var dropped := DropDocuments(t, PathsWith(t, h));
    assert !Referenced(dropped, h);
    assert h in Doomed(dropped, QueueScope, {h});
    var swept := SweepTx(dropped, QueueScope, {h});
    assert h !in swept.content && ChunkIds(swept, h) == {};
    var doc := Document(p, Row(Read(h), size, mtime));
    assert [doc][..0] == [];
    assert UpsertAll(swept, [], now) == swept;
    assert UpsertAll(swept, [doc], now) == UpsertOne(swept, doc, now);
    assert ChunkIds(UpsertOne(swept, doc, now), h) == ChunkIds(swept, h);
  }

  lemma DeadOnceUnchunked(s: Spelling, m: Machine, vecs: seq<Vector>)
    requires Healthy(s, m) && m.work.Awaiting? && |vecs| == |m.work.ids| && ChunkIds(m.t, m.work.h) == {}
    ensures VectorOutcomeOf(m.t, m.work.ids, vecs) == VectorOutcome.Superseded
  {
    assert m.work.ids[0] in Members(m.work.ids);
    hide Inv, Embedded, Swept, VectorOutcomeOf, Dead;
    SupersededIffRewritten(s, m, vecs);
  }

  /** A row that is still to be worked, untouched by the sweeps. */
  ghost predicate Unworked(t: Tables, h: Hash) {
    && h in t.content && t.content[h] == NewContent(t.content[h].updatedAt) && t.gens.Keys <= {1} && Inv(t)
  }

  lemma FirstUpsert(h: Hash, p: Path, now: int)
    ensures var t := UpsertAll(EMPTY, [Document(p, Row(Read(h), 0, 0))], now);
            Unworked(t, h) && t.gens == map[]
  {
    var doc := Document(p, Row(Read(h), 0, 0));
    assert [doc][..0] == [];
    assert UpsertAll(EMPTY, [], now) == EMPTY;
    UpsertAllKeeps(EMPTY, [doc], now);
  }

  lemma SweepSkips(t: Tables, h: Hash, current: Versions)
    requires Unworked(t, h)
    ensures Unworked(ResetStaleSpec(t, current), h) && ResetStaleSpec(t, current).gens == t.gens
  {
    ResetKeeps(t, current);
  }

  lemma FirstGeneration(t: Tables, h: Hash, want: Descriptor) returns (after: Tables)
    requires Unworked(t, h) && t.gens == map[]
    ensures Ensured(t, want, after) && Unworked(after, h)
  {
    after := t.(gens := t.gens[1 := Generation(want, map[])], current := Some(1));
    assert !HasMatch(t, want);
    EnsureKeeps(t, want, after);
  }

  lemma UnworkedRow(t: Tables, h: Hash)
    requires Unworked(t, h)
    ensures Inv(t) && h in t.content && !t.content[h].state.Terminal() && t.content[h].attempts == 0
  {
    hide Inv;
  }

  /** From a new database to a process that has done its sweeps, with one content to work. */
  lemma SweptReached(s: Spelling, cfg: Config, h: Hash, p: Path, now: int) returns (states: seq<Machine>, ops: seq<Op>)
    ensures Run(s, states, ops) && states[0] == Boot(cfg) && |ops| == 4
    ensures var m := states[4];
            m.work.NoWork? && m.cfg == cfg && m.sweptVersions && m.prepared && m.sweptDims && Unworked(m.t, h)
  {
    hide UpsertAll, ResetStaleSpec, Ensured, KnownStages, DimsStage, Unworked, Inv;
    var docs := [Document(p, Row(Read(h), 0, 0))];
    var m0 := Boot(cfg);
    var m1 := m0.(t := UpsertAll(EMPTY, docs, now));
    FirstUpsert(h, p, now);
    var m2 := m1.(t := ResetStaleSpec(m1.t, KnownStages(s, cfg)), sweptVersions := true);
    SweepSkips(m1.t, h, KnownStages(s, cfg));
    var prepared := FirstGeneration(m2.t, h, Wanted(cfg.embedder, cfg.dims));
    var m3 := m2.(t := prepared, prepared := true);
    var m4 := m3.(t := ResetStaleSpec(m3.t, DimsStage(s, cfg)), sweptDims := true);
    SweepSkips(m3.t, h, DimsStage(s, cfg));
    states, ops := [m0, m1, m2, m3, m4], [Op.Upsert(docs, now), SweepVersions, Prepare, SweepDims];
    assert Step(s, m0, ops[0], m1) && Step(s, m1, ops[1], m2) && Step(s, m2, ops[2], m3) && Step(s, m3, ops[3], m4);
  }

  /** And on to a content whose embedding is awaited: the claim, and its chunks stored. */
  lemma AwaitingReached(s: Spelling, m: Machine, h: Hash, chunk: Chunk, now: int)
    returns (states: seq<Machine>, ops: seq<Op>)
    requires m.work.NoWork? && m.sweptVersions && m.prepared && m.sweptDims && Unworked(m.t, h)
    ensures Run(s, states, ops) && states[0] == m && |ops| == 2
    ensures var n := states[2];
            && n.work.Awaiting? && n.work.h == h && |n.work.ids| == 1 && n.claimed == 0 && n.cfg == m.cfg
            && n.sweptVersions && n.sweptDims && h in n.t.content && !n.t.content[h].state.Terminal()
  {
    hide StoreChunksSpec, StageVersions, Unworked, Inv, LeavesAlone, Merged;
    UnworkedRow(m.t, h);
    var claimed := Taken(m, h);
    var after := StoreChunksSpec(m.t, h, Chunked, NewVersions(s, claimed), [chunk], now);
    var awaiting := With(claimed.(rewritten := false), after, Awaiting(h, NewIds(m.t, 1)));
    StoreLeavesAlone(m.t, h, Chunked, NewVersions(s, claimed), [chunk], now);
    states, ops := [m, claimed, awaiting], [Claim(h), StoreChunks([chunk], now)];
    assert Step(s, m, ops[0], claimed) && Step(s, claimed, ops[1], awaiting);
  }

  /** The process has done its sweeps, and h stands failed under stale stamps. */
  ghost predicate EndsFailedStale(s: Spelling, m: Machine, h: Hash) {
    && m.sweptVersions && m.sweptDims && h in m.t.content && m.t.content[h].state.Failed?
    && Stale(m.t.content[h].versions, StageVersions(s, m.cfg))
  }

  /** So from a new database, with a budget of one attempt, both inputs are reached: the content chunked afresh,
      and the content swept away and put back. */
  lemma StaleFailureReached(s: Spelling, cfg: Config, h: Hash, p: Path, chunk: Chunk, vec: Vector, now: int)
    returns (rechunked: seq<Machine>, ops: seq<Op>, swept: seq<Machine>, ops': seq<Op>)
    requires Injective(s) && cfg.maxAttempts <= 1
    ensures Run(s, rechunked, ops) && rechunked[0] == Boot(cfg) && EndsFailedStale(s, rechunked[|ops|], h)
    ensures Run(s, swept, ops') && swept[0] == Boot(cfg) && EndsFailedStale(s, swept[|ops'|], h)
  {
    hide Injective, Step, Healthy, Stale, Unworked;
    var states, steps := AwaitedFromBoot(s, cfg, h, p, chunk, now);
    var m := states[|steps|];
    UnstampedIsStale(s, cfg);
    var b, y := RechunkedThenFailedStale(s, m, map[], [vec], now, now);
    RunsJoin(s, states, steps, b, y);
    rechunked, ops := states + b[1..], steps + y;
    var c, z := SweptThenFailedStale(s, m, p, 0, 0, [vec], now, now);
    RunsJoin(s, states, steps, c, z);
    swept, ops' := states + c[1..], steps + z;
  }

  lemma AwaitedFromBoot(s: Spelling, cfg: Config, h: Hash, p: Path, chunk: Chunk, now: int)
    returns (states: seq<Machine>, ops: seq<Op>)
    requires Injective(s)
    ensures |states| == |ops| + 1 && Run(s, states, ops) && states[0] == Boot(cfg)
    ensures var m := states[|ops|];
            && Healthy(s, m) && m.work.Awaiting? && m.work.h == h && |m.work.ids| == 1 && m.claimed == 0 && m.cfg == cfg
            && m.sweptVersions && m.sweptDims && h in m.t.content && !m.t.content[h].state.Terminal()
  {
    hide Injective, Step, Healthy, Unworked;
    var a, x := SweptReached(s, cfg, h, p, now);
    var b, y := AwaitingReached(s, a[4], h, chunk, now);
    RunsJoin(s, a, x, b, y);
    states, ops := a + b[1..], x + y;
    EveryStateIsHealthy(s, states, ops, cfg);
    assert Healthy(s, states[|ops|]);
  }

  // ---------------------------------------------------------------------------------------
  // The retry budget

  ghost predicate NonNegative(m: Machine) {
    m.claimed >= 0 && forall h :: h in m.t.content ==> m.t.content[h].attempts >= 0
  }

  /** From the claim until its fate is decided. */
  predicate InPass(work: Work) { work.Claimed? || work.Awaiting? || work.Probing? || work.Charging? }

  /** The row in hand still has the attempts it was claimed with. */
  ghost predicate Counted(m: Machine) {
    m.alone && InPass(m.work) && m.work.h in m.t.content ==> RowOf(m).attempts == m.claimed
  }

  /** The content in hand is still to be finished. */
  ghost predicate InHand(m: Machine) {
    !m.work.NoWork? && !m.work.Failing? && m.work.h in m.t.content ==> !RowOf(m).state.Terminal()
  }

  /** Every row still to be worked has attempts left, but for the one being given up on. */
  ghost predicate WithinBudget(m: Machine) {
    forall h :: h in m.t.content && !m.t.content[h].state.Terminal() && m.work != GivingUp(h) ==>
      m.t.content[h].attempts < m.cfg.maxAttempts
  }

  /** What one step can do to one row's state and attempts. */
  ghost predicate RowMoves(m: Machine, op: Op, n: Machine, h: Hash)
    requires h in n.t.content
  {
    var d := n.t.content[h];
    if h !in m.t.content then d.attempts == 0 && d.state.Discovered?
    else
      var c := m.t.content[h];
      var mine := !m.work.NoWork? && m.work.h == h;
      || (d.attempts == c.attempts && d.state == c.state)
      || (d.attempts == 0 && d.state.Discovered? && (op.SweepVersions? || op.SweepDims?))
      || (d.attempts == c.attempts && d.state.Chunked? && mine && op.StoreChunks?)
      || (d.attempts == c.attempts && d.state.Chunked? && !c.state.Terminal() && op.Another?)
      || (d.attempts == c.attempts && d.state.Failed? && mine && (op.Undecodable? || op.Poison? || op.MarkFailed?))
      || (d.attempts == c.attempts && d.state.Indexed? && mine && op.SetIndexed?)
      || (d.attempts == m.claimed + 1 && d.state == c.state && m.work == Charging(h) && op.Charge?)
  }

  lemma AnotherMovesRow(t: Tables, tx: CatalogProofs.Op, after: Tables, h: Hash)
    requires Outside(t, tx) && CatalogProofs.Step(t, tx, after) && h in after.content
    ensures if h !in t.content then after.content[h].attempts == 0 && after.content[h].state.Discovered?
            else after.content[h].attempts == t.content[h].attempts
                 && (|| after.content[h].state == t.content[h].state
                     || (after.content[h].state.Chunked? && !t.content[h].state.Terminal()))
  {
    hide Inv, DropVectors, ChunkIds, Orphans, DistinctOrdinals, UpsertAll;
    if tx.Upsert? {
      UpsertLeavesAlone(t, tx.docs, tx.now);
    }
  }

  lemma StoringMovesRow(s: Spelling, m: Machine, op: Op, n: Machine, h: Hash)
    requires Step(s, m, op, n) && h in n.t.content
    requires op.StoreChunks? || op.Undecodable? || op.Poison? || op.MarkFailed? || op.SetIndexed?
    ensures RowMoves(m, op, n, h)
  {
    hide StageVersions, DistinctOrdinals, Stale, NewVersions, NewIds, StoreChunksSpec, MarkFailedSpec;
    match op
    case StoreChunks(chunks, now) => StoredRow(m.t, m.work.h, Chunked, NewVersions(s, m), chunks, now);
    case Undecodable(now) => StoredRow(m.t, m.work.h, Failed, NewVersions(s, m), [], now);
    case Poison(versions, now) => StoredRow(m.t, m.work.h, Failed, versions, [], now);
    case MarkFailed(now) => MarkedRow(m.t, m.work.h, now);
    case SetIndexed(_) =>
  }

  lemma SweepMovesRow(s: Spelling, m: Machine, op: Op, n: Machine, h: Hash)
    requires Step(s, m, op, n) && h in n.t.content && (op.SweepVersions? || op.SweepDims?)
    ensures RowMoves(m, op, n, h)
  {
    hide Stale, KnownStages, DimsStage;
  }

  lemma ScheduleMovesRow(s: Spelling, m: Machine, op: Op, n: Machine, h: Hash)
    requires Step(s, m, op, n) && h in n.t.content && (op.Defer? || op.Charge?)
    ensures RowMoves(m, op, n, h)
  {
  }

  /** The steps that write no row of their own. */
  lemma OtherMovesRow(s: Spelling, m: Machine, op: Op, n: Machine, h: Hash)
    requires Step(s, m, op, n) && h in n.t.content
    requires op.Upsert? || op.Drop? || op.Collect? || op.Another? || op.StoreVectors? || op.Prepare? || op.ProbePasses?
    ensures RowMoves(m, op, n, h)
  {
    hide Doomed, VectorOutcomeOf, UpsertAll, Undone, Outside, CatalogProofs.Step, DropContent, UpsertVectorsSpec, Wanted,
      HasMatch, IsNextGen, Matches;
    match op {
      case Upsert(docs, now) => UpsertLeavesAlone(m.t, docs, now);
      case Collect(scope, batch) => DroppedRows(m.t, Doomed(m.t, scope, batch));
      case Another(tx) => AnotherMovesRow(m.t, tx, n.t, h);
      case StoreVectors(vecs) => VectorsKeepRows(m.t, m.work.ids, vecs);
      case _ =>
    }
  }

  lemma ControlMovesNoRow(s: Spelling, m: Machine, op: Op, n: Machine)
    requires Step(s, m, op, n)
    requires op.Restart? || op.Claim? || op.Stop? || op.EmbedTransient? || op.VectorsSuperseded?
    ensures n.t == m.t
  {
    hide VectorOutcomeOf;
  }

  lemma StepMovesRow(s: Spelling, m: Machine, op: Op, n: Machine, h: Hash)
    requires Step(s, m, op, n) && h in n.t.content
    ensures RowMoves(m, op, n, h)
  {
    hide Step;
    if op.StoreChunks? || op.Undecodable? || op.Poison? || op.MarkFailed? || op.SetIndexed? {
      StoringMovesRow(s, m, op, n, h);
    } else if op.SweepVersions? || op.SweepDims? {
      SweepMovesRow(s, m, op, n, h);
    } else if op.Defer? || op.Charge? {
      ScheduleMovesRow(s, m, op, n, h);
    } else if op.Restart? || op.Claim? || op.Stop? || op.EmbedTransient? || op.VectorsSuperseded? {
      ControlMovesNoRow(s, m, op, n);
    } else {
      OtherMovesRow(s, m, op, n, h);
    }
  }

  lemma DroppedRows(t: Tables, doomed: set<Hash>)
    ensures DropContent(t, doomed).content == t.content - doomed
  {
  }

  lemma StoredRow(t: Tables, h: Hash, state: State, versions: Versions, chunks: seq<Chunk>, now: int)
    requires h in t.content && (chunks == [] || DistinctOrdinals(chunks))
    ensures StoreChunksSpec(t, h, state, versions, chunks, now).content
         == t.content[h := t.content[h].(state := state, versions := versions, updatedAt := now)]
  {
  }

  lemma MarkedRow(t: Tables, h: Hash, now: int)
    ensures MarkFailedSpec(t, h, now).content == SetStateSpec(t, h, Failed, now).content
  {
  }

  lemma VectorsKeepRows(t: Tables, ids: seq<nat>, vecs: seq<Vector>)
    ensures UpsertVectorsSpec(t, ids, vecs).content == t.content
  {
    hide VectorOutcomeOf, PutVectors;
  }

  /** What one step can do to the claim. */
  lemma StepMovesClaim(s: Spelling, m: Machine, op: Op, n: Machine)
    requires Step(s, m, op, n)
    ensures op.Claim? ==> n.work == Claimed(op.h) && op.h in m.t.content && n.t == m.t && n.claimed == m.t.content[op.h].attempts
    ensures op.Restart? ==> n.claimed == 0 && n.alone && n.work.NoWork?
    ensures !op.Claim? && !op.Restart? ==> n.claimed == m.claimed && (n.alone ==> m.alone)
    ensures op.Another? ==> !n.alone
    ensures !n.alone && !op.Another? ==> !m.alone && !op.Restart?
    ensures op.SweepVersions? || op.SweepDims? ==> n.work.NoWork?
    ensures op.Charge? ==> !InPass(n.work)
    ensures InPass(n.work) && !op.Claim? ==> InPass(m.work)
  {
    hide UpsertAll, DropDocuments, SweepTx, ResetStaleSpec, Ensured, StoreChunksSpec, MarkFailedSpec, SetStateSpec,
      RescheduleSpec, UpsertVectorsSpec, VectorOutcomeOf, DistinctOrdinals, StageVersions, KnownStages, DimsStage;
  }

  lemma NonNegativeStep(s: Spelling, m: Machine, op: Op, n: Machine)
    requires Step(s, m, op, n) && NonNegative(m)
    ensures NonNegative(n)
  {
    hide Step;
    StepMovesClaim(s, m, op, n);
    forall h | h in n.t.content ensures n.t.content[h].attempts >= 0 {
      StepMovesRow(s, m, op, n, h);
    }
  }

  lemma CountedStep(s: Spelling, m: Machine, op: Op, n: Machine)
    requires Step(s, m, op, n) && Counted(m)
    ensures Counted(n)
  {
    hide Step;
    StepMovesClaim(s, m, op, n);
    if n.alone && InPass(n.work) && n.work.h in n.t.content && !op.Claim? {
      StepMovesRow(s, m, op, n, n.work.h);
      WorkStaysInContent(s, m, op, n);
    }
  }

  lemma InHandStep(s: Spelling, m: Machine, op: Op, n: Machine)
    requires Step(s, m, op, n) && InHand(m)
    ensures InHand(n)
  {
    hide UpsertAll, DropDocuments, SweepTx, ResetStaleSpec, Ensured, StoreChunksSpec, MarkFailedSpec, SetStateSpec,
      RescheduleSpec, UpsertVectorsSpec, VectorOutcomeOf, DistinctOrdinals, StageVersions, KnownStages, DimsStage,
      CatalogProofs.Step;
    if !n.work.NoWork? && n.work.h in n.t.content {
      StepMovesRow(s, m, op, n, n.work.h);
      if op.Claim? {
        assert n.t == m.t;
      } else {
        WorkStaysInContent(s, m, op, n);
      }
    }
  }

  lemma SameWork(s: Spelling, m: Machine, op: Op, n: Machine)
    requires Step(s, m, op, n) && !op.Claim? && !n.work.NoWork?
    ensures !m.work.NoWork? && m.work.h == n.work.h
  {
    hide UpsertAll, DropDocuments, SweepTx, ResetStaleSpec, Ensured, StoreChunksSpec, MarkFailedSpec, SetStateSpec,
      RescheduleSpec, UpsertVectorsSpec, VectorOutcomeOf, DistinctOrdinals, StageVersions, KnownStages, DimsStage,
      CatalogProofs.Step, Stale, NewVersions, Undone, Outside, Wanted, NewIds;
    match op {
      case Another(tx) => assert n.work == m.work;
      case StoreChunks(_, _) => assert m.work.Claimed? && n.work.h == m.work.h;
      case _ =>
    }
  }

  lemma WorkStaysInContent(s: Spelling, m: Machine, op: Op, n: Machine)
    requires Step(s, m, op, n) && !op.Claim? && !n.work.NoWork? && n.work.h in n.t.content
    ensures !m.work.NoWork? && m.work.h == n.work.h && (op.Another? || n.work.h in m.t.content)
  {
    hide UpsertAll, DropDocuments, SweepTx, ResetStaleSpec, StoreChunksSpec, MarkFailedSpec, SetStateSpec, RescheduleSpec,
      VectorOutcomeOf, PutVectors, HasMatch, IsNextGen, Matches, DistinctOrdinals, StageVersions, KnownStages, DimsStage,
      CatalogProofs.Step, Stale, Merged, Undone, Outside, Wanted, NewIds;
    SameWork(s, m, op, n);
    if op.StoreVectors? || op.ProbePasses? {
      assert n.t.content == m.t.content;
    }
  }

  /** Which step raises which row's attempts, and by how much. */
  lemma OnlyChargeRaises(s: Spelling, m: Machine, op: Op, n: Machine, h: Hash)
    requires Step(s, m, op, n) && NonNegative(m) && Counted(m) && h in m.t.content && h in n.t.content
    ensures n.t.content[h].attempts > m.t.content[h].attempts ==>
              && op.Charge? && m.work == Charging(h) && n.t.content[h].attempts == m.claimed + 1
              && (m.alone ==> m.claimed == m.t.content[h].attempts)
  {
    StepMovesRow(s, m, op, n, h);
    hide Step;
  }

  lemma BudgetStep(s: Spelling, m: Machine, op: Op, n: Machine)
    requires Step(s, m, op, n) && InHand(m) && WithinBudget(m)
    requires n.cfg.maxAttempts == m.cfg.maxAttempts > 0
    requires op.Stop? || op.Restart? ==> !m.work.GivingUp?
    ensures WithinBudget(n)
  {
    forall h | h in n.t.content && !n.t.content[h].state.Terminal() && n.work != GivingUp(h)
      ensures n.t.content[h].attempts < n.cfg.maxAttempts
    {
      BudgetRow(s, m, op, n, h);
    }
  }

  lemma BudgetRow(s: Spelling, m: Machine, op: Op, n: Machine, h: Hash)
    requires Step(s, m, op, n) && InHand(m) && WithinBudget(m)
    requires n.cfg.maxAttempts == m.cfg.maxAttempts > 0
    requires op.Stop? || op.Restart? ==> !m.work.GivingUp?
    requires h in n.t.content && !n.t.content[h].state.Terminal() && n.work != GivingUp(h)
    ensures n.t.content[h].attempts < n.cfg.maxAttempts
  {
    hide UpsertAll, DropDocuments, SweepTx, ResetStaleSpec, Ensured, StoreChunksSpec, MarkFailedSpec, SetStateSpec,
      RescheduleSpec, UpsertVectorsSpec, VectorOutcomeOf, DistinctOrdinals, StageVersions, KnownStages, DimsStage,
      CatalogProofs.Step;
    StepMovesRow(s, m, op, n, h);
    if op.MarkFailed? && m.work.h == h {
      MarkedRowFails(m, n, op.now);
    }
    if op.Charge? {
      ChargedRow(m, op.at, op.now);
    }
  }

  lemma MarkedRowFails(m: Machine, n: Machine, now: int)
    requires !m.work.NoWork? && n.t == MarkFailedSpec(m.t, m.work.h, now) && m.work.h in n.t.content
    ensures n.t.content[m.work.h].state.Failed?
  {
  }

  lemma ChargedRow(m: Machine, at: int, now: int)
    requires m.work.Charging? && m.work.h in m.t.content
    ensures var t := RescheduleSpec(m.t, m.work.h, m.claimed + 1, at, now);
            m.work.h in t.content && t.content[m.work.h].attempts == m.claimed + 1
  {
  }

  lemma {:induction false} EveryStateIsInHand(s: Spelling, states: seq<Machine>, ops: seq<Op>, cfg: Config)
    requires Run(s, states, ops) && states[0] == Boot(cfg)
    ensures forall i :: 0 <= i < |states| ==> NonNegative(states[i]) && InHand(states[i]) && Counted(states[i])
    decreases |ops|
  {
    hide Step, NonNegative, InHand, Counted, WithinBudget;
    if ops == [] {
      BootIsSound(cfg);
    } else {
      var n := |ops| - 1;
      assert Run(s, states[..n + 1], ops[..n]);
      EveryStateIsInHand(s, states[..n + 1], ops[..n], cfg);
      assert NonNegative(states[..n + 1][n]) && InHand(states[..n + 1][n]) && Counted(states[..n + 1][n]);
      NonNegativeStep(s, states[n], ops[n], states[n + 1]);
      CountedStep(s, states[n], ops[n], states[n + 1]);
      InHandStep(s, states[n], ops[n], states[n + 1]);
    }
  }

  lemma BootIsSound(cfg: Config)
    ensures NonNegative(Boot(cfg)) && InHand(Boot(cfg)) && Counted(Boot(cfg))
    ensures WithinBudget(Boot(cfg))
  {
  }

  /** An attempt is charged only by a step taken straight after a re-probe that passed or a superseded
      write, on the count the content was claimed with, which is its row's count unless a second writer is
      about: an endpoint that does not answer charges nothing. */
  lemma AttemptsRiseOnlyWhenCharged(s: Spelling, states: seq<Machine>, ops: seq<Op>, cfg: Config, i: nat, h: Hash)
    requires Run(s, states, ops) && states[0] == Boot(cfg) && i < |ops|
    requires h in states[i].t.content && h in states[i + 1].t.content
    requires states[i + 1].t.content[h].attempts > states[i].t.content[h].attempts
    ensures ops[i].Charge? && states[i].work == Charging(h)
    ensures states[i + 1].t.content[h].attempts == states[i].claimed + 1
    ensures states[i].alone ==> states[i + 1].t.content[h].attempts == states[i].t.content[h].attempts + 1
    ensures i > 0 && (ops[i - 1].ProbePasses? || ops[i - 1].VectorsSuperseded?)
  {
    hide NonNegative, InHand, Counted, Step;
    EveryStateIsInHand(s, states, ops, cfg);
    assert Step(s, states[i], ops[i], states[i + 1]);
    OnlyChargeRaises(s, states[i], ops[i], states[i + 1], h);
    if i > 0 {
      assert Step(s, states[i - 1], ops[i - 1], states[i - 1 + 1]);
      ChargedFrom(s, states[i - 1], ops[i - 1], states[i - 1 + 1]);
    }
  }

  lemma ChargedFrom(s: Spelling, m: Machine, op: Op, n: Machine)
    requires Step(s, m, op, n) && n.work.Charging?
    ensures op.ProbePasses? || op.VectorsSuperseded?
  {
    hide UpsertAll, DropDocuments, SweepTx, ResetStaleSpec, Ensured, StoreChunksSpec, MarkFailedSpec, SetStateSpec,
      RescheduleSpec, UpsertVectorsSpec, VectorOutcomeOf, DistinctOrdinals, StageVersions, KnownStages, DimsStage,
      CatalogProofs.Step, Stale, NewVersions, Undone, Outside, Wanted, NewIds;
  }

  /** The cap is one number, and the write that gives a content up lands once its last attempt is
      recorded. */
  ghost predicate WritesLand(states: seq<Machine>, ops: seq<Op>, cap: int)
    requires |states| == |ops| + 1
  {
    && (forall i :: 0 <= i < |states| ==> states[i].cfg.maxAttempts == cap)
    && (forall i :: 0 <= i < |ops| && (ops[i].Stop? || ops[i].Restart?) ==> !states[i].work.GivingUp?)
  }

  /** Every row still to be worked has attempts below the cap, between any two steps. */
  lemma {:induction false} AttemptsStayBelowTheCap(s: Spelling, states: seq<Machine>, ops: seq<Op>, cfg: Config)
    requires Run(s, states, ops) && states[0] == Boot(cfg)
    requires cfg.maxAttempts > 0 && WritesLand(states, ops, cfg.maxAttempts)
    ensures forall i :: 0 <= i < |states| ==> WithinBudget(states[i])
    decreases |ops|
  {
    hide Step, WithinBudget, InHand, NonNegative;
    if ops == [] {
      assert WithinBudget(Boot(cfg)) by { BootIsSound(cfg); }
    } else {
      var n := |ops| - 1;
      assert Run(s, states[..n + 1], ops[..n]);
      EveryStateIsInHand(s, states, ops, cfg);
      AttemptsStayBelowTheCap(s, states[..n + 1], ops[..n], cfg);
      assert WithinBudget(states[..n + 1][n]);
      BudgetStep(s, states[n], ops[n], states[n + 1]);
    }
  }
}
