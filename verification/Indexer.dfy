/** One claimed content through read, verify, chunk, embed and store (internal/pipeline/pipeline.go),
    each committed transaction a step of the machine in Pipeline. */
module Indexers {
  import opened Bytes
  import opened Domain
  import opened Catalog
  import opened Stores
  import opened Pipeline
  import Encoding
  import Chunking
  import CatalogProofs

  datatype FileRead = Contents(raw: Str) | Unreadable

  /** What the endpoint answers: vectors, an outage, or a refusal of this input. */
  datatype Answer = Vectors(vecs: seq<Vector>) | TransientError | PoisonError | Cancelled

  /** What one attempt meets: the files as they are now, the endpoint, what other processes commit while it
      is asked, and store writes that fail. */
  datatype Attempt = Attempt(
    read: Path -> FileRead, answer: Answer, meanwhile: seq<CatalogProofs.Op>, now: int,
    storeFault: bool, vectorsFault: bool, stateFault: bool, markFault: bool)

  /** OutcomeGone and OutcomeSuperseded are the two arms of the source's OutcomeSuperseded, which its caller
      tells apart by the error it carries. */
  datatype Outcome =
    | OutcomeIndexed | OutcomeFailed | OutcomeSkipped | OutcomeTransient | OutcomeChanged
    | OutcomeSuperseded | OutcomeGone | OutcomeError

  datatype Verified = Found(raw: Str) | NoneMatch | NoneReadable

  predicate Holds(sha: Str -> Hash, read: Path -> FileRead, p: Path, h: Hash) {
    read(p).Contents? && sha(read(p).raw) == h
  }

  /** The rows of h are the chunks of this text, in some order of ids. */
  ghost predicate HoldsChunks(t: Tables, h: Hash, chunks: seq<Chunk>, ids: seq<nat>) {
    && |ids| == |chunks| && Members(ids) == ChunkIds(t, h)
    && forall k :: 0 <= k < |ids| ==> ids[k] in t.chunks && t.chunks[ids[k]] == ChunkRow(h, chunks[k])
  }

  /** h is indexed as the chunks of these bytes, decoded. */
  ghost predicate HoldsText(t: Tables, h: Hash, raw: Str, ceiling: int) {
    && h in t.content && t.content[h].state == Indexed
    && exists text, ids ::
         Encoding.NormalizeSpec(raw) == Encoding.Ok(text) && HoldsChunks(t, h, Chunking.ChunkSpec(text, ceiling).chunks, ids)
  }

  /** h is indexed as what some copy of it really holds: bytes that hash to h, decoded, and cut into
      exactly these chunks. */
  ghost predicate IndexedFrom(t: Tables, h: Hash, sha: Str -> Hash, read: Path -> FileRead, ceiling: int) {
    exists p :: Holds(sha, read, p, h) && HoldsText(t, h, read(p).raw, ceiling)
  }

  /** The rows are the content's own, or none of them is left. */
  ghost predicate HeldOrDead(t: Tables, h: Hash, chunks: seq<Chunk>, ids: seq<nat>) {
    |ids| == |chunks| && ids != [] && (HoldsChunks(t, h, chunks, ids) || Dead(t, ids))
  }

  ghost predicate ChunksOfOthers(t: Tables, after: Tables, h: Hash) {
    && (forall id :: id in t.chunks && t.chunks[id].hash != h ==> id in after.chunks && after.chunks[id] == t.chunks[id])
    && (forall id :: id in after.chunks && after.chunks[id].hash != h ==> id in t.chunks && t.chunks[id] == after.chunks[id])
  }

  ghost predicate VectorsOfOthers(t: Tables, after: Tables, h: Hash) {
    forall g :: g in t.gens ==>
      && g in after.gens
      && forall id :: id in t.chunks && t.chunks[id].hash != h ==>
           && (id in t.gens[g].vecs <==> id in after.gens[g].vecs)
           && (id in t.gens[g].vecs ==> after.gens[g].vecs[id] == t.gens[g].vecs[id])
  }

  /** Nothing but h is touched: every document, and of every other content its row, its chunks and its
      vectors in every generation. */
  ghost predicate OthersUntouched(t: Tables, after: Tables, h: Hash) {
    && after.documents == t.documents && after.content.Keys == t.content.Keys
    && (forall k :: k in t.content && k != h ==> after.content[k] == t.content[k])
    && ChunksOfOthers(t, after, h) && VectorsOfOthers(t, after, h)
  }

  /** No attempt is charged, but to the contents of `except`: a count stands, or starts again from nothing. */
  ghost predicate CountsKept(t: Tables, after: Tables, except: set<Hash>) {
    forall k :: k in after.content && k !in except ==>
      after.content[k].attempts == 0 || (k in t.content && after.content[k].attempts == t.content[k].attempts)
  }

  /** One transaction of the work on h. */
  ghost predicate Worked(t: Tables, after: Tables, h: Hash) { OthersUntouched(t, after, h) && CountsKept(t, after, {}) }

  /** No content but those of `except` comes to an end. */
  ghost predicate NoneFinished(t: Tables, after: Tables, except: set<Hash>) {
    forall k :: k in after.content && k !in except && after.content[k].state.Terminal() ==>
      k in t.content && t.content[k].state.Terminal()
  }

  /** The hashes a transaction can bring in. */
  function Brings(tx: CatalogProofs.Op): set<Hash> {
    if tx.Upsert? then set d | d in tx.docs && d.row.source.Read? :: d.row.source.hash else {}
  }

  ghost predicate BroughtBy(txs: seq<CatalogProofs.Op>, k: Hash) { exists tx :: tx in txs && k in Brings(tx) }

  ghost predicate KeysFrom(t: Tables, after: Tables, txs: seq<CatalogProofs.Op>) {
    forall k :: k in after.content ==> k in t.content || BroughtBy(txs, k)
  }

  /** The work on h, with these transactions of other processes landing inside it: nothing but h is touched
      unless by them; and with them or without, no attempt is charged, no other content comes to an end, and
      no content comes in but theirs. */
  ghost predicate Kept(t: Tables, after: Tables, h: Hash, txs: seq<CatalogProofs.Op>) {
    && (txs == [] ==> OthersUntouched(t, after, h))
    && CountsKept(t, after, {}) && NoneFinished(t, after, {h}) && KeysFrom(t, after, txs)
  }

  /** The sweeps and the gate stand as they were. */
  ghost predicate SameSweeps(m: Machine, n: Machine) {
    n.cfg == m.cfg && n.sweptVersions == m.sweptVersions && n.sweptDims == m.sweptDims && n.prepared == m.prepared
  }

  /** And so does the claim. */
  ghost predicate SameProcess(m: Machine, n: Machine) { SameSweeps(m, n) && n.claimed == m.claimed }

  class Indexer {
    const store: Store
    const spelling: Spelling
    const cfg: Config
    const sha: Str -> Hash

    /** Every process that ever worked this database, this one last, as a run of the machine. */
    ghost var machine: Machine
    ghost var states: seq<Machine>
    ghost var ops: seq<Op>

    ghost predicate Tracked()
      reads this
    {
      && Injective(spelling) && Healthy(spelling, machine) && machine.cfg == cfg
      && |states| == |ops| + 1 && states[|ops|] == machine && Run(spelling, states, ops)
      && states[0] == Boot(states[0].cfg)
    }

    ghost predicate Valid()
      reads this, store
    {
      Tracked() && machine.t == store.T()
    }

    /** A new process over the database its predecessors left, however they ended. */
    constructor (store: Store, spelling: Spelling, cfg: Config, sha: Str -> Hash,
                 ghost past: seq<Machine>, ghost pastOps: seq<Op>)
      requires Injective(spelling) && |past| == |pastOps| + 1 && Run(spelling, past, pastOps)
      requires past[0] == Boot(past[0].cfg) && past[|pastOps|].t == store.T()
      ensures this.store == store && this.spelling == spelling && this.cfg == cfg && this.sha == sha
      ensures Valid() && machine == Started(store.T(), cfg)
      ensures states == past + [machine] && ops == pastOps + [Restart(cfg)]
    {
      this.store, this.spelling, this.cfg, this.sha := store, spelling, cfg, sha;
      ghost var m := past[|pastOps|];
      ghost var n := Started(m.t, cfg);
      machine, states, ops := n, past + [n], pastOps + [Restart(cfg)];
      new;
      hide Healthy, Injective, Run;
      EveryStateIsHealthy(spelling, past, pastOps, past[0].cfg);
      StepKeepsHealthy(spelling, m, Restart(cfg), n);
      RunExtends(spelling, past, pastOps, Restart(cfg), n);
    }

    /** The store has moved on by one step, and the machine with it. */
    ghost method Advance(op: Op, n: Machine)
      requires Tracked() && Step(spelling, machine, op, n) && n.cfg == cfg && n.t == store.T()
      modifies this`machine, this`states, this`ops
      ensures Valid() && machine == n && ops == old(ops) + [op] && states == old(states) + [n]
    {
      hide Healthy, Injective, Step;
      StepKeepsHealthy(spelling, machine, op, n);
      RunExtends(spelling, states, ops, op, n);
      machine, states, ops := n, states + [n], ops + [op];
    }

    /** readVerified: the first copy, newest first, that can be read and still hashes to h. */
    method ReadVerified(paths: seq<Path>, h: Hash, read: Path -> FileRead) returns (v: Verified)
      ensures v.Found? <==> exists k :: 0 <= k < |paths| && Holds(sha, read, paths[k], h)
      ensures v.Found? ==> exists k :: 0 <= k < |paths| && Holds(sha, read, paths[k], h) && v.raw == read(paths[k]).raw
                                       && forall j :: 0 <= j < k ==> !Holds(sha, read, paths[j], h)
      ensures v.NoneReadable? <==> forall k :: 0 <= k < |paths| ==> read(paths[k]).Unreadable?
    {
      var mismatched := false;
      for i := 0 to |paths|
        invariant forall k :: 0 <= k < i ==> !Holds(sha, read, paths[k], h)
        invariant mismatched <==> exists k :: 0 <= k < i && read(paths[k]).Contents?
      {
        match read(paths[i])
        case Unreadable =>
        case Contents(raw) =>
          if sha(raw) == h {
            return Found(raw);
          }
          mismatched := true;
      }
      return if mismatched then NoneMatch else NoneReadable;
    }

    /** Abandon the content in hand: a claim that came to nothing, or a write that did not land. */
    ghost method Abandon()
      requires Valid()
      modifies this`machine, this`states, this`ops
      ensures Valid() && machine == old(machine).(work := NoWork) && ops == old(ops) + [Stop]
      ensures states == old(states) + [machine]
    {
      Advance(Stop, machine.(work := NoWork));
    }

    // -------------------------------------------------------------------------------------
    // One transaction each

    /** The first half of failWith: the row with current stage versions, and without chunks. */
    method StoreFailed(h: Hash, versions: Versions, now: int, fault: bool) returns (ok: bool, gone: bool)
      requires Valid() && FailsFrom(spelling, machine, h, versions)
      modifies this`machine, this`states, this`ops, store`content, store`chunks, store`nextId, store`gens
      ensures Valid() && SameProcess(old(machine), machine) && old(ops) <= ops && old(states) <= states
      ensures machine.work == if ok then Failing(h) else NoWork
      ensures gone ==> !ok && old(machine).work.Awaiting?
      ensures Worked(old(store.T()), store.T(), h)
    {
      hide Healthy, Injective, Run, Inv, StoreChunksSpec, Step, StageVersions, Worked, Stale;
      ghost var m := machine;
      InvOf(spelling, m);
      var r := store.StoreChunks(h, Failed, versions, [], now, fault);
      if r.Err? {
        WorkedItself(m.t, h);
        Abandon();
        return false, r.error == ContentGone;
      }
      StoredWorked(m.t, h, Failed, versions, [], now);
      StoreFailedStep(spelling, m, versions, now);
      Advance(if m.work.Claimed? then Undecodable(now) else Poison(versions, now), With(m, store.T(), Failing(h)));
      return true, false;
    }

    method MarkFailed(h: Hash, now: int, fault: bool) returns (ok: bool)
      requires Valid() && (machine.work == Failing(h) || machine.work == GivingUp(h))
      modifies this`machine, this`states, this`ops, store`content, store`chunks, store`gens
      ensures Valid() && SameProcess(old(machine), machine) && old(ops) <= ops && old(states) <= states && machine.work == NoWork
      ensures ok <==> !fault
      ensures store.T() == if ok then MarkFailedSpec(old(store.T()), h, now) else old(store.T())
      ensures ok ==> h in store.content && store.content[h].state == Failed && ChunkIds(store.T(), h) == {}
      ensures Worked(old(store.T()), store.T(), h)
    {
      hide Healthy, Injective, Run, Inv, MarkFailedSpec, Step, Worked, ChunkIds;
      ghost var m := machine;
      InvOf(spelling, m);
      var r := store.MarkFailed(h, now, fault);
      if r.Err? {
        WorkedItself(m.t, h);
        Abandon();
        return false;
      }
      MarkedWorked(m.t, h, now);
      MarkFailedStep(spelling, m, now);
      Advance(Op.MarkFailed(now), Buried(m, store.T()));
      return true;
    }

    /** failWith, under the versions merged at the claim. */
    method FailWith(h: Hash, versions: Versions, now: int, storeFault: bool, markFault: bool) returns (o: Outcome)
      requires Valid() && FailsFrom(spelling, machine, h, versions)
      modifies this`machine, this`states, this`ops, store`content, store`chunks, store`nextId, store`gens
      ensures Valid() && SameProcess(old(machine), machine) && old(ops) <= ops && old(states) <= states && machine.work == NoWork
      ensures o.OutcomeFailed? || o.OutcomeError? || (o.OutcomeGone? && old(machine).work.Awaiting?)
      ensures o.OutcomeFailed? ==> h in store.content && store.content[h].state == Failed && ChunkIds(store.T(), h) == {}
      ensures Worked(old(store.T()), store.T(), h)
    {
      hide Valid, Tracked, Worked, ChunkIds, FailsFrom;
      var ok, gone := StoreFailed(h, versions, now, storeFault);
      if !ok {
        return if gone then OutcomeGone else OutcomeError;
      }
      ghost var mid := store.T();
      ok := MarkFailed(h, now, markFault);
      WorkedTwice(old(store.T()), mid, store.T(), h);
      return if ok then OutcomeFailed else OutcomeError;
    }

    /** The chunks of the verified text, under the versions of this process. */
    method StoreChunked(h: Hash, versions: Versions, chunks: seq<Chunk>, now: int, fault: bool)
      returns (o: Outcome, ids: seq<nat>)
      requires Valid() && machine.work == Claimed(h) && DistinctOrdinals(chunks)
      requires h in store.content && versions == NewVersions(spelling, machine)
      modifies this`machine, this`states, this`ops, store`content, store`chunks, store`nextId, store`gens
      ensures Valid() && SameProcess(old(machine), machine) && old(ops) <= ops && old(states) <= states
      ensures o.OutcomeIndexed? || o.OutcomeError?
      ensures o.OutcomeError? ==> machine.work == NoWork
      ensures o.OutcomeIndexed? ==>
                && machine.work == (if chunks == [] then Vectored(h) else Awaiting(h, ids))
                && h in store.content && HoldsChunks(store.T(), h, chunks, ids)
      ensures Worked(old(store.T()), store.T(), h)
    {
      hide Healthy, Injective, Run, Inv, StoreChunksSpec, Step, StageVersions, Worked, DistinctOrdinals, HoldsChunks;
      ghost var m := machine;
      InvOf(spelling, m);
      var r := store.StoreChunks(h, Chunked, versions, chunks, now, fault);
      if r.Err? {
        WorkedItself(m.t, h);
        Abandon();
        return OutcomeError, [];
      }
      ids := r.value;
      StoredWorked(m.t, h, Chunked, versions, chunks, now);
      StoredChunksHeld(m.t, h, versions, chunks, now);
      StoreChunksStep(spelling, m, chunks, now);
      Advance(Op.StoreChunks(chunks, now),
              With(m.(rewritten := false), store.T(),
                   if chunks == [] then Vectored(h) else Awaiting(h, NewIds(m.t, |chunks|))));
      return OutcomeIndexed, ids;
    }

    /** What other processes commit while the endpoint is asked; only what a second writer can do lands. */
    method Meanwhile(h: Hash, ids: seq<nat>, txs: seq<CatalogProofs.Op>, ghost chunks: seq<Chunk>)
      requires Valid() && machine.work == Awaiting(h, ids) && HeldOrDead(store.T(), h, chunks, ids)
      modifies this`machine, this`states, this`ops,
        store`documents, store`content, store`chunks, store`nextId, store`gens
      ensures Valid() && SameProcess(old(machine), machine) && old(ops) <= ops && old(states) <= states
      ensures machine.work == Awaiting(h, ids) && HeldOrDead(store.T(), h, chunks, ids)
      ensures Kept(old(store.T()), store.T(), h, txs)
    {
      hide Healthy, Injective, Run, Inv, Step, CatalogProofs.Step, HeldOrDead, Kept;
      KeptItself(store.T(), h);
      for i := 0 to |txs|
        invariant Valid() && SameProcess(old(machine), machine) && old(ops) <= ops && old(states) <= states
        invariant machine.work == Awaiting(h, ids) && HeldOrDead(store.T(), h, chunks, ids)
        invariant Kept(old(store.T()), store.T(), h, txs[..i])
      {
        ghost var m := machine;
        ghost var sofar := txs[..i];
        InvOf(spelling, m);
        assert txs[..i + 1] == sofar + [txs[i]];
        if Outside(Tables(store.documents, store.content, store.chunks, store.nextId, store.gens, store.current), txs[i]) {
          store.CommittedByAnother(txs[i]);
          AnotherIsStep(spelling, m, txs[i], store.T());
          HeldOrDeadKept(m.t, txs[i], store.T(), h, chunks, ids);
          KeptByAnother(old(store.T()), m.t, txs[i], store.T(), h, sofar);
          Advance(Another(txs[i]), Disturbed(spelling, m, txs[i], store.T()));
        } else {
          KeptLonger(old(store.T()), store.T(), h, sofar, txs[i]);
        }
      }
      assert txs[..|txs|] == txs;
    }

    /** The vectors of an embed: the widest window, so the one place the write can be superseded. */
    method StoreVectors(h: Hash, ids: seq<nat>, vecs: seq<Vector>, fault: bool, ghost chunks: seq<Chunk>) returns (o: Outcome)
      requires Valid() && machine.work == Awaiting(h, ids) && HeldOrDead(store.T(), h, chunks, ids)
      modifies this`machine, this`states, this`ops, store`gens
      ensures Valid() && SameProcess(old(machine), machine) && old(ops) <= ops && old(states) <= states
      ensures o.OutcomeIndexed? || o.OutcomeSuperseded? || o.OutcomeError?
      ensures machine.work == if o.OutcomeIndexed? then Vectored(h) else if o.OutcomeSuperseded? then Charging(h) else NoWork
      ensures o.OutcomeSuperseded? ==> ops == old(ops) + [VectorsSuperseded(vecs)]
      ensures o.OutcomeIndexed? ==> HoldsChunks(store.T(), h, chunks, ids)
      ensures Worked(old(store.T()), store.T(), h)
    {
      hide Healthy, Injective, Run, Inv, UpsertVectorsSpec, Step, Worked, VectorOutcomeOf, HoldsChunks, Dead;
      ghost var m := machine;
      InvOf(spelling, m);
      var r := store.UpsertVectors(ids, vecs, fault);
      WorkedItself(m.t, h);
      if r == Err(ContentSuperseded) {
        SupersededIsStep(spelling, m, vecs);
        Advance(VectorsSuperseded(vecs), m.(work := Charging(h)));
        return OutcomeSuperseded;
      }
      if r.Err? {
        Abandon();
        return OutcomeError;
      }
      LiveAfterAll(m.t, h, ids, vecs, chunks);
      VectorsStep(spelling, m, vecs);
      VectorsWorked(m.t, h, ids, vecs, chunks);
      Advance(Op.StoreVectors(vecs), With(m, store.T(), Vectored(h)));
      return OutcomeIndexed;
    }

    method SetIndexed(h: Hash, now: int, fault: bool, ghost chunks: seq<Chunk>, ghost ids: seq<nat>) returns (ok: bool)
      requires Valid() && machine.work == Vectored(h) && HoldsChunks(store.T(), h, chunks, ids)
      modifies this`machine, this`states, this`ops, store`content
      ensures Valid() && SameProcess(old(machine), machine) && old(ops) <= ops && old(states) <= states && machine.work == NoWork
      ensures h in store.content && HoldsChunks(store.T(), h, chunks, ids)
      ensures ok ==> store.content[h].state == Indexed
      ensures Worked(old(store.T()), store.T(), h)
    {
      hide Healthy, Injective, Run, Inv, Step, Worked;
      ghost var m := machine;
      InvOf(spelling, m);
      var r := store.UpdateContentState(h, Indexed, now, fault);
      assert ChunkIds(store.T(), h) == ChunkIds(m.t, h);
      if r.Err? {
        WorkedItself(m.t, h);
        Abandon();
        return false;
      }
      StateWorked(m.t, h, Indexed, now);
      IndexedStep(spelling, m, now);
      Advance(Op.SetIndexed(now), With(m, store.T(), NoWork));
      return true;
    }

    /** ProcessContent. */
    method ProcessContent(h: Hash, paths: seq<Path>, w: Attempt) returns (o: Outcome)
      requires Valid() && machine.work == Claimed(h)
      modifies this`machine, this`states, this`ops,
        store`documents, store`content, store`chunks, store`nextId, store`gens
      ensures Valid() && SameProcess(old(machine), machine) && old(ops) <= ops && old(states) <= states
      ensures o.OutcomeSkipped? <==> forall k :: 0 <= k < |paths| ==> w.read(paths[k]).Unreadable?
      ensures o.OutcomeChanged? <==>
                && (exists k :: 0 <= k < |paths| && w.read(paths[k]).Contents?)
                && !(exists k :: 0 <= k < |paths| && Holds(sha, w.read, paths[k], h))
      ensures o.OutcomeSkipped? || o.OutcomeChanged? ==>
                machine == old(machine) && ops == old(ops) && store.T() == old(store.T())
      ensures o.OutcomeIndexed? ==> IndexedFrom(store.T(), h, sha, w.read, cfg.embedder.ceilingTokens)
      ensures o.OutcomeFailed? ==> h in store.content && store.content[h].state == Failed && ChunkIds(store.T(), h) == {}
      ensures LeftAt(machine.work, h, o) && (o.OutcomeSuperseded? ==> EndsSuperseded(ops, |old(ops)|))
      ensures Kept(old(store.T()), store.T(), h, w.meanwhile)
    {
      hide Valid, Tracked, Kept, Worked, ChunkIds, HoldsText, IndexedFrom, EndsSuperseded;
      WorkedIsKept(store.T(), store.T(), h, w.meanwhile) by { WorkedItself(store.T(), h); }
      var v := ReadVerified(paths, h, w.read);
      if v.NoneReadable? {
        return OutcomeSkipped;
      }
      if v.NoneMatch? {
        return OutcomeChanged;
      }
      o := IndexVerified(h, v.raw, w);
      if o.OutcomeIndexed? {
        IndexedAs(store.T(), h, sha, w.read, paths, v.raw, cfg.embedder.ceilingTokens);
      }
    }

    /** The rest of ProcessContent, on bytes known to be h's. */
    method IndexVerified(h: Hash, raw: Str, w: Attempt) returns (o: Outcome)
      requires Valid() && machine.work == Claimed(h)
      modifies this`machine, this`states, this`ops,
        store`documents, store`content, store`chunks, store`nextId, store`gens
      ensures Valid() && SameProcess(old(machine), machine) && old(ops) <= ops && old(states) <= states
      ensures !o.OutcomeSkipped? && !o.OutcomeChanged?
      ensures o.OutcomeIndexed? ==> HoldsText(store.T(), h, raw, cfg.embedder.ceilingTokens)
      ensures o.OutcomeFailed? ==> h in store.content && store.content[h].state == Failed && ChunkIds(store.T(), h) == {}
      ensures LeftAt(machine.work, h, o) && (o.OutcomeSuperseded? ==> EndsSuperseded(ops, |old(ops)|))
      ensures Kept(old(store.T()), store.T(), h, w.meanwhile)
    {
      hide Valid, Tracked, Kept, Worked, ChunkIds, HoldsChunks, HoldsText, Encoding.NormalizeSpec, Chunking.ChunkSpec,
        DistinctOrdinals, Merged, StageVersions, FailsFrom;
      ClaimedHere(this, h);
      var versions := Merged(store.content[h].versions, StageVersions(spelling, cfg));
      VersionsHere(this, h, versions);
      var decoded := Encoding.Normalize(raw);
      if decoded.Err? {
        o := FailWith(h, versions, w.now, w.storeFault, w.markFault);
        WorkedIsKept(old(store.T()), store.T(), h, w.meanwhile);
        return;
      }
      o := IndexText(h, raw, decoded.text, versions, w);
    }

    /** Chunk, store, embed and finish. */
    method IndexText(h: Hash, ghost raw: Str, text: Str, versions: Versions, w: Attempt) returns (o: Outcome)
      requires Valid() && machine.work == Claimed(h) && Encoding.NormalizeSpec(raw) == Encoding.Ok(text)
      requires h in store.content && versions == NewVersions(spelling, machine)
      requires !Stale(versions, StageVersions(spelling, cfg))
      modifies this`machine, this`states, this`ops,
        store`documents, store`content, store`chunks, store`nextId, store`gens
      ensures Valid() && SameProcess(old(machine), machine) && old(ops) <= ops && old(states) <= states
      ensures !o.OutcomeSkipped? && !o.OutcomeChanged?
      ensures o.OutcomeIndexed? ==> HoldsText(store.T(), h, raw, cfg.embedder.ceilingTokens)
      ensures o.OutcomeFailed? ==> h in store.content && store.content[h].state == Failed && ChunkIds(store.T(), h) == {}
      ensures LeftAt(machine.work, h, o) && (o.OutcomeSuperseded? ==> EndsSuperseded(ops, |old(ops)|))
      ensures Kept(old(store.T()), store.T(), h, w.meanwhile)
    {
      hide Valid, Tracked, Kept, Worked, ChunkIds, HoldsChunks, HoldsText, Encoding.NormalizeSpec, Chunking.ChunkSpec,
        DistinctOrdinals, Merged, StageVersions, Stale;
      var res := Chunking.Chunk(text, cfg.embedder.ceilingTokens);
      OrdinalsDistinct(text, cfg.embedder.ceilingTokens);
      var ids;
      o, ids := StoreChunked(h, versions, res.chunks, w.now, w.storeFault);
      WorkedIsKept(old(store.T()), store.T(), h, w.meanwhile);
      if o.OutcomeError? {
        return;
      }
      ghost var stored := store.T();
      if |res.chunks| > 0 {
        o := Embed(h, versions, ids, w, res.chunks);
        WorkedThenKept(old(store.T()), stored, store.T(), h, w.meanwhile);
        if !o.OutcomeIndexed? {
          return;
        }
      }
      ghost var embedded := store.T();
      var ok := SetIndexed(h, w.now, w.stateFault, res.chunks, ids);
      KeptThenWorked(old(store.T()), embedded, store.T(), h, w.meanwhile);
      if !ok {
        return OutcomeError;
      }
      TextHeld(store.T(), h, raw, text, cfg.embedder.ceilingTokens, ids);
      return OutcomeIndexed;
    }

    /** The network call and what its answer means; no transaction is open across it, so other processes'
        may land. */
    method Embed(h: Hash, versions: Versions, ids: seq<nat>, w: Attempt, ghost chunks: seq<Chunk>) returns (o: Outcome)
      requires Valid() && machine.work == Awaiting(h, ids) && chunks != [] && HoldsChunks(store.T(), h, chunks, ids)
      requires !Stale(versions, StageVersions(spelling, cfg))
      modifies this`machine, this`states, this`ops,
        store`documents, store`content, store`chunks, store`nextId, store`gens
      ensures Valid() && SameProcess(old(machine), machine) && old(ops) <= ops && old(states) <= states
      ensures !o.OutcomeSkipped? && !o.OutcomeChanged?
      ensures o.OutcomeIndexed? ==> machine.work == Vectored(h) && HoldsChunks(store.T(), h, chunks, ids)
      ensures o.OutcomeFailed? ==> h in store.content && store.content[h].state == Failed && ChunkIds(store.T(), h) == {}
      ensures !o.OutcomeIndexed? ==> LeftAt(machine.work, h, o)
      ensures o.OutcomeSuperseded? ==> EndsSuperseded(ops, |old(ops)|)
      ensures Kept(old(store.T()), store.T(), h, w.meanwhile)
    {
      hide Healthy, Run, Injective, Kept, Worked, ChunkIds, HoldsChunks, HeldOrDead, Stale, StageVersions;
      ChunksAreHeld(store.T(), h, chunks, ids);
      Meanwhile(h, ids, w.meanwhile, chunks);
      ghost var mid := store.T();
      KeptThenWorked(old(store.T()), mid, mid, h, w.meanwhile) by { WorkedItself(mid, h); }
      match w.answer {
        case Cancelled =>
          Abandon();
          return OutcomeError;
        case TransientError => return OutcomeTransient;
        case PoisonError =>
          o := FailWith(h, versions, w.now, w.storeFault, w.markFault);
          KeptThenWorked(old(store.T()), mid, store.T(), h, w.meanwhile);
        case Vectors(vecs) =>
          o := StoreVectors(h, ids, vecs, w.vectorsFault, chunks);
          KeptThenWorked(old(store.T()), mid, store.T(), h, w.meanwhile);
      }
    }
  }

  /** Where each outcome of ProcessContent leaves the content in hand. */
  predicate LeftAt(work: Work, h: Hash, o: Outcome) {
    match o
    case OutcomeIndexed => work == NoWork
    case OutcomeFailed => work == NoWork
    case OutcomeError => work == NoWork
    case OutcomeGone => work == NoWork
    case OutcomeSkipped => work == Claimed(h)
    case OutcomeChanged => work == Claimed(h)
    case OutcomeSuperseded => work == Charging(h)
    case OutcomeTransient => work.Awaiting? && work.h == h
  }

  /** Of the steps from n on, the last is a superseded write. */
  ghost predicate EndsSuperseded(ops: seq<Op>, n: nat) { n < |ops| && ops[|ops| - 1].VectorsSuperseded? }

  /** What is recorded of a failure carries current stage versions. */
  ghost predicate FailsFrom(s: Spelling, m: Machine, h: Hash, versions: Versions) {
    || (m.work == Claimed(h) && h in m.t.content && versions == NewVersions(s, m))
    || (m.work.Awaiting? && m.work.h == h && !Stale(versions, StageVersions(s, m.cfg)))
  }

  // ---------------------------------------------------------------------------------------
  // The steps of the machine

  lemma StoreFailedStep(s: Spelling, m: Machine, versions: Versions, now: int)
    requires m.work.Claimed? || m.work.Awaiting?
    requires FailsFrom(s, m, m.work.h, versions) && m.work.h in m.t.content
    ensures Step(s, m, if m.work.Claimed? then Undecodable(now) else Poison(versions, now),
                 With(m, StoreChunksSpec(m.t, m.work.h, Failed, versions, [], now), Failing(m.work.h)))
  {
    hide StoreChunksSpec, StageVersions, Stale;
  }

  lemma MarkFailedStep(s: Spelling, m: Machine, now: int)
    requires m.work.Failing? || m.work.GivingUp?
    ensures Step(s, m, Op.MarkFailed(now), Buried(m, MarkFailedSpec(m.t, m.work.h, now)))
  {
    hide MarkFailedSpec;
  }

  lemma StoreChunksStep(s: Spelling, m: Machine, chunks: seq<Chunk>, now: int)
    requires m.work.Claimed? && m.work.h in m.t.content && DistinctOrdinals(chunks)
    ensures Step(s, m, Op.StoreChunks(chunks, now),
                 With(m.(rewritten := false), StoreChunksSpec(m.t, m.work.h, Chunked, NewVersions(s, m), chunks, now),
                      if chunks == [] then Vectored(m.work.h) else Awaiting(m.work.h, NewIds(m.t, |chunks|))))
  {
    hide StoreChunksSpec, StageVersions, DistinctOrdinals;
  }

  lemma VectorsStep(s: Spelling, m: Machine, vecs: seq<Vector>)
    requires m.work.Awaiting? && VectorOutcomeOf(m.t, m.work.ids, vecs) == VectorOutcome.Stored
    ensures Step(s, m, Op.StoreVectors(vecs), With(m, UpsertVectorsSpec(m.t, m.work.ids, vecs), Vectored(m.work.h)))
  {
    hide VectorOutcomeOf, UpsertVectorsSpec;
  }

  lemma IndexedStep(s: Spelling, m: Machine, now: int)
    requires m.work.Vectored?
    ensures Step(s, m, Op.SetIndexed(now), With(m, SetStateSpec(m.t, m.work.h, Indexed, now), NoWork))
  {
    hide SetStateSpec;
  }

  lemma StoredChunksHeld(t: Tables, h: Hash, versions: Versions, chunks: seq<Chunk>, now: int)
    requires Inv(t) && h in t.content && DistinctOrdinals(chunks)
    ensures var after := StoreChunksSpec(t, h, Chunked, versions, chunks, now);
            h in after.content && HoldsChunks(after, h, chunks, NewIds(t, |chunks|))
  {
    StoreLeavesAlone(t, h, Chunked, versions, chunks, now);
    hide StoreChunksSpec, Inv, LeavesAlone, DistinctOrdinals;
    forall k | 0 <= k < |chunks|
      ensures var after := StoreChunksSpec(t, h, Chunked, versions, chunks, now);
              NewIds(t, |chunks|)[k] in after.chunks && after.chunks[NewIds(t, |chunks|)[k]] == ChunkRow(h, chunks[k])
    {
      CatalogProofs.StoredRows(t, h, versions, chunks, now, k);
    }
  }

  lemma OrdinalsDistinct(text: Str, tokens: int)
    ensures DistinctOrdinals(Chunking.ChunkSpec(text, tokens).chunks)
  {
    Chunking.ChunksInOrderAndComplete(text, tokens);
    hide Chunking.ChunkSpec;
  }

  lemma TextHeld(t: Tables, h: Hash, raw: Str, text: Str, ceiling: int, ids: seq<nat>)
    requires h in t.content && t.content[h].state == Indexed && Encoding.NormalizeSpec(raw) == Encoding.Ok(text)
    requires HoldsChunks(t, h, Chunking.ChunkSpec(text, ceiling).chunks, ids)
    ensures HoldsText(t, h, raw, ceiling)
  {
    hide HoldsChunks, Encoding.NormalizeSpec, Chunking.ChunkSpec;
  }

  lemma IndexedAs(t: Tables, h: Hash, sha: Str -> Hash, read: Path -> FileRead, paths: seq<Path>, raw: Str, ceiling: int)
    requires exists k :: 0 <= k < |paths| && Holds(sha, read, paths[k], h) && raw == read(paths[k]).raw
    requires HoldsText(t, h, raw, ceiling)
    ensures IndexedFrom(t, h, sha, read, ceiling)
  {
    hide HoldsText;
  }

  lemma InvOf(s: Spelling, m: Machine)
    requires Healthy(s, m)
    ensures Inv(m.t)
    ensures m.work.Claimed? || m.work.Vectored? || m.work.Failing? || m.work.GivingUp? ==> m.work.h in m.t.content
    ensures m.work.Awaiting? ==> m.work.ids != [] && (Members(m.work.ids) == ChunkIds(m.t, m.work.h) || Dead(m.t, m.work.ids))
  {
    hide Inv, Pipeline.Embedded, Pipeline.Swept, Dead;
  }

  lemma ClaimedHere(indexer: Indexer, h: Hash)
    requires indexer.Valid() && indexer.machine.work == Claimed(h)
    ensures h in indexer.store.content
  {
    InvOf(indexer.spelling, indexer.machine);
  }

  /** The versions merged at the claim are what a failure, now or after the embed, is recorded under. */
  lemma VersionsHere(indexer: Indexer, h: Hash, versions: Versions)
    requires indexer.Valid() && indexer.machine.work == Claimed(h) && h in indexer.store.content
    requires versions == Merged(indexer.store.content[h].versions, StageVersions(indexer.spelling, indexer.cfg))
    ensures versions == NewVersions(indexer.spelling, indexer.machine)
    ensures FailsFrom(indexer.spelling, indexer.machine, h, versions)
    ensures !Stale(versions, StageVersions(indexer.spelling, indexer.cfg))
  {
    hide Healthy, Run, Injective, Stale, StageVersions;
    MergedIsFresh(indexer.store.content[h].versions, StageVersions(indexer.spelling, indexer.cfg));
  }

  lemma RunExtends(s: Spelling, states: seq<Machine>, ops: seq<Op>, op: Op, n: Machine)
    requires |states| == |ops| + 1 && Run(s, states, ops) && Step(s, states[|ops|], op, n)
    ensures Run(s, states + [n], ops + [op])
  {
    hide Step;
    forall i | 0 <= i < |ops + [op]| ensures Step(s, (states + [n])[i], (ops + [op])[i], (states + [n])[i + 1]) {
      if i < |ops| {
        assert Step(s, states[i], ops[i], states[i + 1]);
      }
    }
  }

  lemma AnotherIsStep(s: Spelling, m: Machine, tx: CatalogProofs.Op, t: Tables)
    requires m.work.Awaiting? && Outside(m.t, tx) && CatalogProofs.Step(m.t, tx, t)
    ensures Step(s, m, Another(tx), Disturbed(s, m, tx, t))
  {
    hide CatalogProofs.Step, Undone;
  }

  // ---------------------------------------------------------------------------------------
  // The chunks in hand

  lemma ChunksAreHeld(t: Tables, h: Hash, chunks: seq<Chunk>, ids: seq<nat>)
    requires HoldsChunks(t, h, chunks, ids) && chunks != []
    ensures HeldOrDead(t, h, chunks, ids)
  {
  }

  lemma HeldOrDeadKept(t: Tables, tx: CatalogProofs.Op, after: Tables, h: Hash, chunks: seq<Chunk>, ids: seq<nat>)
    requires Inv(t) && Outside(t, tx) && CatalogProofs.Step(t, tx, after) && HeldOrDead(t, h, chunks, ids)
    ensures HeldOrDead(after, h, chunks, ids)
  {
    hide Inv, CatalogProofs.Step, Dead;
    if Dead(t, ids) {
      DeadStays(t, tx, after, ids);
    } else {
      OnlyResolve(t);
      assert ids[0] in Members(ids);
      StepFateOfHeld(t, tx, after, h, ids);
      assert forall k :: 0 <= k < |ids| ==> ids[k] in Members(ids);
    }
  }

  lemma StepFateOfHeld(t: Tables, tx: CatalogProofs.Op, after: Tables, h: Hash, ids: seq<nat>)
    requires Inv(t) && ChunksResolve(t) && ids != [] && ids[0] in Members(ids) && Members(ids) == ChunkIds(t, h)
    requires CatalogProofs.Step(t, tx, after)
    ensures || Dead(after, ids)
            || (Members(ids) == ChunkIds(after, h)
                && forall id :: id in Members(ids) ==> id in after.chunks && id in t.chunks && after.chunks[id] == t.chunks[id])
  {
    hide Inv, CatalogProofs.Step;
    assert CatalogProofs.Fated(t, h, Members(ids), t);
    CatalogProofs.StepFate(t, h, Members(ids), t, tx, after);
    assert forall id :: id in ids ==> id in Members(ids);
  }

  /** A write that lands finds the chunks alive. */
  lemma LiveAfterAll(t: Tables, h: Hash, ids: seq<nat>, vecs: seq<Vector>, chunks: seq<Chunk>)
    requires HeldOrDead(t, h, chunks, ids) && VectorOutcomeOf(t, ids, vecs) == VectorOutcome.Stored
    ensures HoldsChunks(t, h, chunks, ids)
  {
    hide VectorOutcomeOf, Dead, HoldsChunks;
    if Dead(t, ids) {
      DeadIsNotStored(t, ids, vecs);
    }
  }

  // ---------------------------------------------------------------------------------------
  // What the work on one content leaves alone

  lemma WorkedItself(t: Tables, h: Hash)
    ensures Worked(t, t, h)
  {
  }

  lemma ChunksTwice(a: Tables, b: Tables, c: Tables, h: Hash)
    requires ChunksOfOthers(a, b, h) && ChunksOfOthers(b, c, h)
    ensures ChunksOfOthers(a, c, h)
  {
  }

  lemma VectorsTwice(a: Tables, b: Tables, c: Tables, h: Hash)
    requires ChunksOfOthers(a, b, h) && VectorsOfOthers(a, b, h) && VectorsOfOthers(b, c, h)
    ensures VectorsOfOthers(a, c, h)
  {
    forall g | g in a.gens ensures g in c.gens {
      assert g in b.gens;
    }
    forall g, id | g in a.gens && id in a.chunks && a.chunks[id].hash != h
      ensures (id in a.gens[g].vecs <==> id in c.gens[g].vecs)
              && (id in a.gens[g].vecs ==> c.gens[g].vecs[id] == a.gens[g].vecs[id])
    {
      assert g in b.gens && id in b.chunks && b.chunks[id].hash != h;
    }
  }

  lemma UntouchedTwice(a: Tables, b: Tables, c: Tables, h: Hash)
    requires OthersUntouched(a, b, h) && OthersUntouched(b, c, h)
    ensures OthersUntouched(a, c, h)
  {
    ChunksTwice(a, b, c, h);
    VectorsTwice(a, b, c, h);
    hide ChunksOfOthers, VectorsOfOthers;
  }

  lemma WorkedTwice(a: Tables, b: Tables, c: Tables, h: Hash)
    requires Worked(a, b, h) && Worked(b, c, h)
    ensures Worked(a, c, h)
  {
    hide ChunksOfOthers, VectorsOfOthers;
    UntouchedTwice(a, b, c, h);
  }

  lemma StoredWorked(t: Tables, h: Hash, state: State, versions: Versions, chunks: seq<Chunk>, now: int)
    requires Inv(t) && h in t.content && DistinctOrdinals(chunks)
    ensures Worked(t, StoreChunksSpec(t, h, state, versions, chunks, now), h)
  {
    hide InsertChunks, Inv, DistinctOrdinals, Strip;
    var updated := t.(content := t.content[h := t.content[h].(state := state, versions := versions, updatedAt := now)]);
    var after := StoreChunksSpec(t, h, state, versions, chunks, now);
    OnlyResolve(t);
    StrippedOthers(t, updated, h);
    CatalogProofs.InsertedRows(Strip(updated, h), h, chunks);
    assert ChunksOfOthers(t, after, h) && VectorsOfOthers(t, after, h);
  }

  lemma StrippedOthers(t: Tables, updated: Tables, h: Hash)
    requires updated == t.(content := updated.content)
    ensures ChunksOfOthers(t, Strip(updated, h), h) && VectorsOfOthers(t, Strip(updated, h), h)
    ensures Strip(updated, h).content == updated.content && Strip(updated, h).documents == t.documents
    ensures forall id :: id in Strip(updated, h).chunks ==> id in t.chunks && t.chunks[id] == Strip(updated, h).chunks[id]
    ensures Strip(updated, h).nextId == t.nextId
  {
  }

  lemma MarkedWorked(t: Tables, h: Hash, now: int)
    requires h in t.content
    ensures var after := MarkFailedSpec(t, h, now);
            Worked(t, after, h) && h in after.content && after.content[h].state == Failed && ChunkIds(after, h) == {}
  {
    var marked := SetStateSpec(t, h, Failed, now);
    StrippedOthers(t, marked, h);
    hide ChunksOfOthers, VectorsOfOthers;
    assert ChunkIds(Strip(marked, h), h) == {};
  }

  lemma StateWorked(t: Tables, h: Hash, state: State, now: int)
    requires h in t.content
    ensures Worked(t, SetStateSpec(t, h, state, now), h)
  {
  }

  lemma VectorsWorked(t: Tables, h: Hash, ids: seq<nat>, vecs: seq<Vector>, chunks: seq<Chunk>)
    requires HoldsChunks(t, h, chunks, ids) && VectorOutcomeOf(t, ids, vecs) == VectorOutcome.Stored
    ensures var after := UpsertVectorsSpec(t, ids, vecs);
            Worked(t, after, h) && HoldsChunks(after, h, chunks, ids)
  {
    hide LiveIds;
    if ids != [] {
      var g := t.current.value;
      CatalogProofs.PutVectorsKeys(t.gens[g].vecs, ids, vecs);
      hide PutVectors;
      assert forall id :: id in ids ==> id in Members(ids);
    }
    assert ChunkIds(UpsertVectorsSpec(t, ids, vecs), h) == ChunkIds(t, h);
  }

  // ---------------------------------------------------------------------------------------
  // The same, with other processes about

  lemma UntouchedFinishesNone(a: Tables, b: Tables, h: Hash)
    requires OthersUntouched(a, b, h)
    ensures NoneFinished(a, b, {h}) && forall txs :: KeysFrom(a, b, txs)
  {
    hide ChunksOfOthers, VectorsOfOthers;
  }

  lemma WorkedIsKept(a: Tables, b: Tables, h: Hash, txs: seq<CatalogProofs.Op>)
    requires Worked(a, b, h)
    ensures Kept(a, b, h, txs)
  {
    hide OthersUntouched, CountsKept, NoneFinished, KeysFrom;
    UntouchedFinishesNone(a, b, h);
  }

  lemma KeptItself(t: Tables, h: Hash)
    ensures Kept(t, t, h, [])
  {
    WorkedItself(t, h);
    hide Worked, Kept;
    WorkedIsKept(t, t, h, []);
  }

  lemma WorkedThenKept(a: Tables, b: Tables, c: Tables, h: Hash, txs: seq<CatalogProofs.Op>)
    requires Worked(a, b, h) && Kept(b, c, h, txs)
    ensures Kept(a, c, h, txs)
  {
    hide ChunksOfOthers, VectorsOfOthers, BroughtBy;
    if txs == [] {
      UntouchedTwice(a, b, c, h);
    }
  }

  lemma KeptThenWorked(a: Tables, b: Tables, c: Tables, h: Hash, txs: seq<CatalogProofs.Op>)
    requires Kept(a, b, h, txs) && Worked(b, c, h)
    ensures Kept(a, c, h, txs)
  {
    hide ChunksOfOthers, VectorsOfOthers, BroughtBy;
    if txs == [] {
      UntouchedTwice(a, b, c, h);
    }
  }

  lemma KeptLonger(a: Tables, b: Tables, h: Hash, txs: seq<CatalogProofs.Op>, tx: CatalogProofs.Op)
    requires Kept(a, b, h, txs)
    ensures Kept(a, b, h, txs + [tx])
  {
    hide OthersUntouched, CountsKept, NoneFinished;
    forall k | k in b.content ensures k in a.content || BroughtBy(txs + [tx], k) {
      if k !in a.content {
        var x :| x in txs && k in Brings(x);
        assert x in txs + [tx];
      }
    }
  }

  lemma {:induction false} UpsertBrings(t: Tables, docs: seq<Document>, now: int, k: Hash)
    requires k in UpsertAll(t, docs, now).content
    ensures k in t.content || exists d :: d in docs && d.row.source == Read(k)
    decreases |docs|
  {
    if docs != [] {
      var d := docs[|docs| - 1];
      assert d in docs;
      if d.row.source != Read(k) {
        UpsertBrings(t, docs[..|docs| - 1], now, k);
      }
    }
  }

  lemma AnotherBrings(t: Tables, tx: CatalogProofs.Op, after: Tables, k: Hash)
    requires Outside(t, tx) && CatalogProofs.Step(t, tx, after) && k in after.content
    ensures k in t.content || k in Brings(tx)
  {
    hide UpsertAll, Doomed, DistinctOrdinals;
    if tx.Upsert? {
      UpsertBrings(t, tx.docs, tx.now, k);
    }
  }

  lemma KeptByAnother(a: Tables, t: Tables, tx: CatalogProofs.Op, after: Tables, h: Hash, txs: seq<CatalogProofs.Op>)
    requires Kept(a, t, h, txs) && Outside(t, tx) && CatalogProofs.Step(t, tx, after)
    ensures Kept(a, after, h, txs + [tx])
  {
    hide OthersUntouched, CatalogProofs.Step;
    forall k | k in after.content
      ensures after.content[k].attempts == 0 || (k in a.content && after.content[k].attempts == a.content[k].attempts)
      ensures k !in {h} && after.content[k].state.Terminal() ==> k in a.content && a.content[k].state.Terminal()
      ensures k in a.content || BroughtBy(txs + [tx], k)
    {
      AnotherMovesRow(t, tx, after, k);
      AnotherBrings(t, tx, after, k);
      assert tx in txs + [tx];
      if k in t.content && k !in a.content {
        var x :| x in txs && k in Brings(x);
        assert x in txs + [tx];
      }
    }
  }
}
