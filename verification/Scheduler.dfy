/** The drain (internal/scheduler/scheduler.go): claims, the two stale sweeps, the health gate and the
    retry budget, with discovery's writes landing between contents. */
module Schedulers {
  import Text
  import opened Catalog
  import opened Stores
  import opened Sweep
  import opened Pipeline
  import opened Queue
  import opened Indexers
  import CatalogProofs
  import Ranking

  /** Everything outside the process, by how many questions have been asked of it so far: the clock, what
      discovery writes, what each attempt meets, whether the endpoint answers a probe, which store calls
      fail, and when the context is cancelled or the power cut. */
  datatype World = World(
    now: nat -> int,
    wait: nat -> nat,
    interlude: nat -> seq<DocOp>,
    attempt: nat -> Attempt,
    probe: nat -> bool,
    fault: nat -> bool,
    stop: nat -> bool,
    unplugged: nat -> bool)

  function Named(op: DocOp): set<Hash> {
    match op
    case Upserted(docs, _) => set d | d in docs && d.row.source.Read? :: d.row.source.hash
    case Dropped(_) => {}
  }

  /** No more than these hashes can ever appear. */
  ghost predicate Confined(w: World, universe: set<Hash>) {
    && (forall k: nat, op :: op in w.interlude(k) ==> Named(op) <= universe)
    && (forall k: nat, tx :: tx in w.attempt(k).meanwhile ==> Brings(tx) <= universe)
  }

  lemma ApplyOne(t: Tables, op: DocOp)
    ensures Interfere(t, [op]) == ApplyDoc(t, op)
  {
    assert [op][..0] == [];
    assert Interfere(t, []) == t;
  }

  lemma {:induction false} UpsertNames(t: Tables, docs: seq<Document>, now: int, universe: set<Hash>)
    requires t.content.Keys <= universe
    requires forall d :: d in docs && d.row.source.Read? ==> d.row.source.hash in universe
    ensures UpsertAll(t, docs, now).content.Keys <= universe
    decreases |docs|
  {
    if docs != [] {
      assert docs[|docs| - 1] in docs;
      UpsertNames(t, docs[..|docs| - 1], now, universe);
    }
  }

  lemma ApplyFinishesNone(t: Tables, op: DocOp, universe: set<Hash>)
    requires t.content.Keys <= universe && Named(op) <= universe
    ensures NoneFinished(t, ApplyDoc(t, op), {}) && ApplyDoc(t, op).content.Keys <= universe
  {
    match op
    case Upserted(docs, now) =>
      UpsertLeavesAlone(t, docs, now);
      forall d | d in docs && d.row.source.Read? ensures d.row.source.hash in universe {
        assert d.row.source.hash in Named(op);
      }
      UpsertNames(t, docs, now, universe);
    case Dropped(_) =>
  }

  function OpOf(op: DocOp): Op {
    match op
    case Upserted(docs, now) => Upsert(docs, now)
    case Dropped(paths) => Drop(paths)
  }

  lemma DocStep(s: Spelling, m: Machine, op: DocOp)
    requires m.work.NoWork?
    ensures Step(s, m, OpOf(op), m.(t := ApplyDoc(m.t, op)))
  {
    hide UpsertAll;
  }

  class Scheduler {
    const indexer: Indexer
    const batchSize: int
    var sweptVersions: bool
    var sweptDims: bool
    var tick: nat

    /** The contents this drain has put through the pipeline, in order. */
    ghost var processed: seq<Hash>

    constructor (indexer: Indexer, batchSize: int)
      requires indexer.Valid() && indexer.machine == Started(indexer.store.T(), indexer.cfg)
      requires ValidEmbedder(indexer.cfg.embedder, indexer.cfg.dims)
      ensures Valid() && this.indexer == indexer && indexer.machine == old(indexer.machine)
    {
      this.indexer, this.batchSize := indexer, batchSize;
      sweptVersions, sweptDims, tick, processed := false, false, 0, [];
    }

    ghost predicate Valid()
      reads this, indexer, indexer.store
    {
      && indexer.Valid() && ValidEmbedder(indexer.cfg.embedder, indexer.cfg.dims)
      && sweptVersions == indexer.machine.sweptVersions && sweptDims == indexer.machine.sweptDims
    }

    /** Between contents. */
    ghost predicate Idle()
      reads this, indexer, indexer.store
    {
      Valid() && indexer.machine.work == NoWork
    }

    /** reconcilePending, as its effect on the tables: discovery writes documents and content. */
    method Interlude(w: World, ghost universe: set<Hash>)
      requires Idle() && Confined(w, universe) && indexer.store.content.Keys <= universe
      modifies this`tick, indexer`machine, indexer`states, indexer`ops, indexer.store`documents, indexer.store`content
      ensures Idle() && old(indexer.ops) <= indexer.ops && old(indexer.states) <= indexer.states
      ensures indexer.machine == old(indexer.machine).(t := indexer.store.T())
      ensures NoneFinished(old(indexer.store.T()), indexer.store.T(), {}) && indexer.store.content.Keys <= universe
    {
      hide Healthy, Injective, Run, Step, ApplyDoc;
      var docs := w.interlude(tick);
      tick := tick + 1;
      for i := 0 to |docs|
        invariant Idle() && old(indexer.ops) <= indexer.ops && old(indexer.states) <= indexer.states
        invariant indexer.machine == old(indexer.machine).(t := indexer.store.T())
        invariant NoneFinished(old(indexer.store.T()), indexer.store.T(), {}) && indexer.store.content.Keys <= universe
      {
        ghost var m := indexer.machine;
        assert docs[i] in docs;
        ApplyFinishesNone(m.t, docs[i], universe);
        indexer.store.Disturb([docs[i]]);
        ApplyOne(m.t, docs[i]);
        DocStep(indexer.spelling, m, docs[i]);
        indexer.Advance(OpOf(docs[i]), m.(t := indexer.store.T()));
      }
    }

    /** sweep, at the version stage. */
    method SweepVersions(w: World) returns (ok: bool)
      requires Idle() && !sweptVersions
      modifies this`tick, this`sweptVersions, indexer`machine, indexer`states, indexer`ops, indexer.store`content
      ensures Idle() && old(indexer.ops) <= indexer.ops && old(indexer.states) <= indexer.states
      ensures sweptVersions == ok && indexer.store.content.Keys == old(indexer.store.content.Keys)
      ensures indexer.machine.prepared == old(indexer.machine.prepared)
    {
      hide Healthy, Injective, Run, Step, KnownStages, ResetOne;
      ghost var m := indexer.machine;
      var fault := w.fault(tick);
      tick := tick + 1;
      var r := indexer.store.ResetStale(KnownStages(indexer.spelling, indexer.cfg), fault);
      if r.Err? {
        return false;
      }
      SweepVersionsStep(indexer.spelling, m);
      indexer.Advance(Op.SweepVersions, m.(t := indexer.store.T(), sweptVersions := true));
      sweptVersions := true;
      return true;
    }

    /** sweep, once the probe has said how many dimensions there are. */
    method SweepDims(w: World) returns (ok: bool)
      requires Idle() && !sweptDims && indexer.machine.prepared
      modifies this`tick, this`sweptDims, indexer`machine, indexer`states, indexer`ops, indexer.store`content
      ensures Idle() && old(indexer.ops) <= indexer.ops && old(indexer.states) <= indexer.states
      ensures sweptDims == ok && indexer.store.content.Keys == old(indexer.store.content.Keys)
      ensures indexer.machine.prepared
    {
      hide Healthy, Injective, Run, Step, DimsStage, ResetOne;
      ghost var m := indexer.machine;
      var fault := w.fault(tick);
      tick := tick + 1;
      var r := indexer.store.ResetStale(DimsStage(indexer.spelling, indexer.cfg), fault);
      if r.Err? {
        return false;
      }
      SweepDimsStep(indexer.spelling, m);
      indexer.Advance(Op.SweepDims, m.(t := indexer.store.T(), sweptDims := true));
      sweptDims := true;
      return true;
    }

    /** prepare: the probe, and the vector table for what it answered. */
    method Prepare(w: World) returns (ok: bool)
      requires Idle() && sweptVersions
      modifies this`tick, indexer`machine, indexer`states, indexer`ops, indexer.store`gens, indexer.store`current
      ensures Idle() && old(indexer.ops) <= indexer.ops && old(indexer.states) <= indexer.states
      ensures ok ==> indexer.machine.prepared && Prepared(indexer.machine)
      ensures !ok ==> indexer.store.T() == old(indexer.store.T())
      ensures indexer.store.content == old(indexer.store.content)
    {
      hide Healthy, Injective, Run, Step, Inv, Ensured, Prepared;
      ghost var m := indexer.machine;
      var answers, fault := w.probe(tick), w.fault(tick);
      tick := tick + 1;
      if !answers {
        return false;
      }
      HealthyInv(indexer);
      var r := indexer.store.EnsureVecTable(indexer.cfg.embedder, indexer.cfg.dims, fault);
      if r.Err? {
        return false;
      }
      PreparesStep(indexer.spelling, m, indexer.store.T());
      indexer.Advance(Op.Prepare, m.(t := indexer.store.T(), prepared := true));
      PreparedNow(indexer);
      return true;
    }

    // -------------------------------------------------------------------------------------
    // The retry budget

    /** One write of the retry schedule; a content that is gone is passed over. */
    method Reschedule(h: Hash, attempts: int, at: int, now: int, fault: bool, ghost op: Op, ghost work: Work)
      returns (ok: bool, gone: bool)
      requires Valid()
      requires h in indexer.store.content ==>
                 Step(indexer.spelling, indexer.machine, op,
                      With(indexer.machine, RescheduleSpec(indexer.machine.t, h, attempts, at, now), work))
      modifies indexer`machine, indexer`states, indexer`ops, indexer.store`content
      ensures Valid() && SameProcess(old(indexer.machine), indexer.machine)
      ensures old(indexer.ops) <= indexer.ops && old(indexer.states) <= indexer.states
      ensures indexer.machine.work == if ok && !gone then work else NoWork
      ensures (ok <==> !fault) && (gone <==> ok && h !in old(indexer.store.content))
      ensures indexer.store.T() ==
                if ok && !gone then RescheduleSpec(old(indexer.store.T()), h, attempts, at, now) else old(indexer.store.T())
      ensures OthersUntouched(old(indexer.store.T()), indexer.store.T(), h)
      ensures CountsKept(old(indexer.store.T()), indexer.store.T(), {h})
      ensures h in old(indexer.store.content) && attempts == old(indexer.store.content)[h].attempts ==>
                CountsKept(old(indexer.store.T()), indexer.store.T(), {})
    {
      hide Healthy, Injective, Run, Step, OthersUntouched, CountsKept, RescheduleSpec;
      ghost var m := indexer.machine;
      var r := indexer.store.Reschedule(h, attempts, at, now, fault);
      if r.Err? {
        RescheduledNot(m.t, h);
        indexer.Abandon();
        return r.error == ContentGone, r.error == ContentGone;
      }
      Rescheduled(m.t, h, attempts, at, now);
      indexer.Advance(op, With(m, indexer.store.T(), work));
      return true, false;
    }

    /** reschedule: charge an attempt on the count the content was claimed with, and give the content up at
        the cap. It is two writes, and what is left when the second does not land is a row charged for its
        last attempt but not failed. */
    method Charge(w: World, h: Hash, claimed: int) returns (ok: bool)
      requires Valid() && indexer.machine.work == Charging(h) && claimed == indexer.machine.claimed
      modifies this`tick, indexer`machine, indexer`states, indexer`ops,
        indexer.store`content, indexer.store`chunks, indexer.store`gens
      ensures Idle() && SameProcess(old(indexer.machine), indexer.machine) && tick >= old(tick)
      ensures old(indexer.ops) <= indexer.ops && old(indexer.states) <= indexer.states
      ensures OthersUntouched(old(indexer.store.T()), indexer.store.T(), h)
      ensures CountsKept(old(indexer.store.T()), indexer.store.T(), {h})
      ensures ok <==> !w.fault(old(tick)) && (h in old(indexer.store.content) && Last(claimed) ==> !w.fault(old(tick) + 1))
      ensures h !in old(indexer.store.content) || w.fault(old(tick)) ==> indexer.store.T() == old(indexer.store.T())
      ensures h in old(indexer.store.content) && !w.fault(old(tick)) ==>
                && ChargedAs(old(indexer.store.content)[h], indexer.store.T(), h, claimed + 1, Last(claimed),
                             w.now(old(tick)), w.wait(old(tick)))
                && (Last(claimed) && ok ==> indexer.store.content[h].state == Failed && ChunkIds(indexer.store.T(), h) == {})
                && (!(Last(claimed) && ok) ==>
                      && indexer.store.content[h].state == old(indexer.store.content)[h].state
                      && indexer.store.chunks == old(indexer.store.chunks) && indexer.store.gens == old(indexer.store.gens))
    {
      hide Healthy, Injective, Run, Step, OthersUntouched, CountsKept, RescheduleSpec, MarkFailedSpec, ChunkIds, ChargedAs;
      ghost var t := indexer.store.T();
      var now, wait, fault, markFault := w.now(tick), w.wait(tick), w.fault(tick), w.fault(tick + 1);
      tick := tick + 2;
      var attempts := claimed + 1;
      var last := Last(claimed);
      var at := if last then now else now + wait;
      ChargeStep(indexer.spelling, indexer.machine, at, now);
      var gone;
      ok, gone := Reschedule(h, attempts, at, now, fault, Op.Charge(at, now), if last then GivingUp(h) else NoWork);
      if ok && !gone {
        ChargedThenFailed(t, h, attempts, at, now, last, wait);
      }
      if ok && !gone && last {
        ghost var mid := indexer.store.T();
        ok := indexer.MarkFailed(h, now, markFault);
        ThenWorked(t, mid, indexer.store.T(), h);
      }
    }

    /** The attempt that uses the budget up. */
    predicate Last(claimed: int) { claimed + 1 >= indexer.cfg.maxAttempts }

    /** The question retry asks: was the endpoint healthy when this content failed? */
    method Reprobe(w: World, h: Hash) returns (healthy: bool)
      requires Valid() && indexer.machine.work.Awaiting? && indexer.machine.work.h == h
      modifies this`tick, indexer`machine, indexer`states, indexer`ops, indexer.store`gens, indexer.store`current
      ensures Valid() && SameProcess(old(indexer.machine), indexer.machine) && tick > old(tick)
      ensures old(indexer.ops) <= indexer.ops && old(indexer.states) <= indexer.states
      ensures indexer.machine.work == if healthy then Charging(h) else NoWork
      ensures Worked(old(indexer.store.T()), indexer.store.T(), h)
      ensures healthy ==> w.probe(old(tick)) && indexer.ops == old(indexer.ops) + [EmbedTransient, ProbePasses]
    {
      hide Healthy, Injective, Run, Step, Inv, Ensured, Worked;
      ghost var m := indexer.machine;
      var answers, fault := w.probe(tick), w.fault(tick);
      tick := tick + 1;
      WorkedItself(m.t, h);
      TransientStep(indexer.spelling, m);
      indexer.Advance(EmbedTransient, m.(work := Probing(h)));
      if !answers {
        indexer.Abandon();
        return false;
      }
      healthy := Answered(h, fault);
    }

    /** The vector table for what the probe answered. */
    method Answered(h: Hash, fault: bool) returns (ok: bool)
      requires Valid() && indexer.machine.work == Probing(h)
      modifies indexer`machine, indexer`states, indexer`ops, indexer.store`gens, indexer.store`current
      ensures Valid() && SameProcess(old(indexer.machine), indexer.machine)
      ensures old(indexer.ops) <= indexer.ops && old(indexer.states) <= indexer.states
      ensures indexer.machine.work == if ok then Charging(h) else NoWork
      ensures Worked(old(indexer.store.T()), indexer.store.T(), h)
      ensures ok ==> indexer.ops == old(indexer.ops) + [ProbePasses]
    {
      hide Healthy, Injective, Run, Step, Inv, Ensured, Worked;
      ghost var m := indexer.machine;
      WorkedItself(m.t, h);
      HealthyInv(indexer);
      var r := indexer.store.EnsureVecTable(indexer.cfg.embedder, indexer.cfg.dims, fault);
      if r.Err? {
        indexer.Abandon();
        return false;
      }
      ghost var t := indexer.store.T();
      ProbeStep(indexer.spelling, m, t);
      EnsuredWorked(m.t, Wanted(indexer.cfg.embedder, indexer.cfg.dims), t, h);
      indexer.Advance(ProbePasses, With(m, t, Charging(h)));
      return true;
    }

    /** retry: a transient failure is the content's only if the endpoint answers a probe now; an outage
        charges nothing. */
    method Retry(w: World, h: Hash, claimed: int) returns (ok: bool)
      requires Valid() && indexer.machine.work.Awaiting? && indexer.machine.work.h == h
      requires claimed == indexer.machine.claimed
      modifies this`tick, indexer`machine, indexer`states, indexer`ops,
        indexer.store`content, indexer.store`chunks, indexer.store`gens, indexer.store`current
      ensures Idle() && SameProcess(old(indexer.machine), indexer.machine) && tick > old(tick)
      ensures old(indexer.ops) <= indexer.ops && old(indexer.states) <= indexer.states
      ensures OthersUntouched(old(indexer.store.T()), indexer.store.T(), h)
      ensures CountsKept(old(indexer.store.T()), indexer.store.T(), {h})
      ensures !CountsKept(old(indexer.store.T()), indexer.store.T(), {}) ==>
                w.probe(old(tick)) && Probed(indexer.ops, |old(indexer.ops)|)
      ensures !w.probe(old(tick)) ==> !ok
    {
      hide Indexer.Valid, OthersUntouched, CountsKept;
      ghost var t := indexer.store.T();
      ok := Reprobe(w, h);
      FewerKept(t, indexer.store.T(), {h});
      if ok {
        ghost var mid := indexer.store.T();
        ok := Charge(w, h, claimed);
        WorkedThen(t, mid, indexer.store.T(), h);
        assert indexer.ops[|old(indexer.ops)| + 1] == ProbePasses;
      }
    }

    // -------------------------------------------------------------------------------------
    // Working a batch

    /** One claimed content, re-read now: whether the drain goes on. An attempt is charged to no other
        content, and to this one only after a re-probe that passed or a superseded write. */
    method ProcessOne(w: World, h: Hash, ghost universe: set<Hash>) returns (ok: bool)
      requires Idle() && sweptVersions && sweptDims && indexer.machine.prepared
      requires h in indexer.store.content ==> !indexer.store.content[h].state.Terminal()
      requires Confined(w, universe) && indexer.store.content.Keys <= universe
      modifies this`tick, this`processed, indexer`machine, indexer`states, indexer`ops, indexer.store`documents,
        indexer.store`content, indexer.store`chunks, indexer.store`nextId, indexer.store`gens, indexer.store`current
      ensures Idle() && SameSweeps(old(indexer.machine), indexer.machine) && tick >= old(tick)
      ensures old(indexer.ops) <= indexer.ops && old(indexer.states) <= indexer.states
      ensures processed == old(processed) || processed == old(processed) + [h]
      ensures NoneFinished(old(indexer.store.T()), indexer.store.T(), {h}) && indexer.store.content.Keys <= universe
      ensures CountsKept(old(indexer.store.T()), indexer.store.T(), {h})
      ensures !CountsKept(old(indexer.store.T()), indexer.store.T(), {}) ==>
                Earned(indexer.ops, |old(indexer.ops)|)
      ensures w.attempt(old(tick)).meanwhile == [] ==> OthersUntouched(old(indexer.store.T()), indexer.store.T(), h)
    {
      hide Indexer.Valid, OthersUntouched, CountsKept, NoneFinished, Confined, Earned;
      NothingDone(indexer.store.T(), h);
      var paths := GetWork(indexer.store.documents, indexer.store.content, h);
      if paths.None? {
        return true;
      }
      processed := processed + [h];
      ok := Work(w, h, paths.value, universe);
    }

    /** The claim, the pipeline, and what the outcome is owed. */
    method Work(w: World, h: Hash, paths: seq<Path>, ghost universe: set<Hash>) returns (ok: bool)
      requires Idle() && sweptVersions && sweptDims && indexer.machine.prepared
      requires h in indexer.store.content && !indexer.store.content[h].state.Terminal()
      requires Confined(w, universe) && indexer.store.content.Keys <= universe
      modifies this`tick, indexer`machine, indexer`states, indexer`ops, indexer.store`documents,
        indexer.store`content, indexer.store`chunks, indexer.store`nextId, indexer.store`gens, indexer.store`current
      ensures Idle() && SameSweeps(old(indexer.machine), indexer.machine) && tick >= old(tick)
      ensures old(indexer.ops) <= indexer.ops && old(indexer.states) <= indexer.states
      ensures NoneFinished(old(indexer.store.T()), indexer.store.T(), {h}) && indexer.store.content.Keys <= universe
      ensures CountsKept(old(indexer.store.T()), indexer.store.T(), {h})
      ensures !CountsKept(old(indexer.store.T()), indexer.store.T(), {}) ==> Earned(indexer.ops, |old(indexer.ops)|)
      ensures w.attempt(old(tick)).meanwhile == [] ==> OthersUntouched(old(indexer.store.T()), indexer.store.T(), h)
    {
      hide Indexer.Valid, Kept, OthersUntouched, CountsKept, NoneFinished, IndexedFrom, ChunkIds, EndsSuperseded, Holds, LeftAt,
        Confined, Earned, Probed;
      ghost var t, from := indexer.store.T(), tick;
      var claimed := indexer.store.content[h].attempts;
      TakeUp(h);
      var attempt, now := w.attempt(tick), w.now(tick);
      tick := tick + 1;
      var o := indexer.ProcessContent(h, paths, attempt);
      ghost var mid, ops := indexer.store.T(), indexer.ops;
      ok := Settle(w, h, o, claimed, now);
      SettledAfter(t, mid, indexer.store.T(), h, attempt.meanwhile);
      StillConfined(w, from, t, mid, indexer.store.T(), h, universe);
      EarnedBy(o, |old(indexer.ops)|, ops, indexer.ops);
    }

    /** The claim itself writes nothing. */
    ghost method TakeUp(h: Hash)
      requires Idle() && sweptVersions && sweptDims && indexer.machine.prepared
      requires h in indexer.store.content && !indexer.store.content[h].state.Terminal()
      modifies indexer`machine, indexer`states, indexer`ops
      ensures Valid() && SameSweeps(old(indexer.machine), indexer.machine) && indexer.machine.work == Claimed(h)
      ensures indexer.machine.claimed == indexer.store.content[h].attempts
      ensures indexer.ops == old(indexer.ops) + [Op.Claim(h)] && old(indexer.states) <= indexer.states
    {
      hide Healthy, Injective, Run, Step;
      ClaimStep(indexer.spelling, indexer.machine, h);
      indexer.Advance(Op.Claim(h), Taken(indexer.machine, h));
    }

    /** What each outcome is owed. */
    method Settle(w: World, h: Hash, o: Outcome, claimed: int, now: int) returns (ok: bool)
      requires Valid() && LeftAt(indexer.machine.work, h, o) && claimed == indexer.machine.claimed
      modifies this`tick, indexer`machine, indexer`states, indexer`ops, indexer.store`content,
        indexer.store`chunks, indexer.store`gens, indexer.store`current
      ensures Idle() && SameProcess(old(indexer.machine), indexer.machine) && tick >= old(tick)
      ensures old(indexer.ops) <= indexer.ops && old(indexer.states) <= indexer.states
      ensures OthersUntouched(old(indexer.store.T()), indexer.store.T(), h)
      ensures CountsKept(old(indexer.store.T()), indexer.store.T(), {h})
      ensures !CountsKept(old(indexer.store.T()), indexer.store.T(), {}) ==>
                o.OutcomeSuperseded? || (o.OutcomeTransient? && w.probe(old(tick)) && Probed(indexer.ops, |old(indexer.ops)|))
    {
      hide Healthy, Injective, Run, Step, OthersUntouched, CountsKept;
      NothingDone(indexer.store.T(), h);
      match o {
        case OutcomeIndexed => return true;
        case OutcomeFailed => return true;
        case OutcomeGone => return true;
        case OutcomeError => return false;
        case OutcomeSkipped =>
          indexer.Abandon();
          return true;
        case OutcomeChanged => ok := DeferChanged(w, h, now);
        case OutcomeSuperseded => ok := Charge(w, h, claimed);
        case OutcomeTransient => ok := Retry(w, h, claimed);
      }
    }

    /** A content whose copies have all changed waits out the backoff cap, uncharged. */
    method DeferChanged(w: World, h: Hash, now: int) returns (ok: bool)
      requires Valid() && indexer.machine.work == Claimed(h)
      modifies this`tick, indexer`machine, indexer`states, indexer`ops, indexer.store`content
      ensures Idle() && SameProcess(old(indexer.machine), indexer.machine) && tick > old(tick)
      ensures old(indexer.ops) <= indexer.ops && old(indexer.states) <= indexer.states
      ensures OthersUntouched(old(indexer.store.T()), indexer.store.T(), h)
      ensures CountsKept(old(indexer.store.T()), indexer.store.T(), {})
      ensures CountsKept(old(indexer.store.T()), indexer.store.T(), {h})
    {
      hide Healthy, Injective, Run, Step, OthersUntouched, CountsKept, RescheduleSpec;
      InvOf(indexer.spelling, indexer.machine);
      var fault := w.fault(tick);
      tick := tick + 1;
      DeferStep(indexer.spelling, indexer.machine, now + BACKOFF_CAP, now);
      var gone;
      ok, gone := Reschedule(h, indexer.store.content[h].attempts, now + BACKOFF_CAP, now, fault,
                             Op.Defer(now + BACKOFF_CAP, now), NoWork);
    }

    /** process: each content of the batch in turn, with discovery's writes landing in between. */
    method Process(w: World, batch: seq<Hash>, seen0: set<Hash>, ghost universe: set<Hash>)
      returns (seen: set<Hash>, ok: bool)
      requires Idle() && sweptVersions && sweptDims && indexer.machine.prepared
      requires Ranking.Distinct(batch) && Workable(indexer.store.T(), batch, 0) && forall h :: h in batch ==> h !in seen0
      requires Confined(w, universe) && indexer.store.content.Keys <= universe
      requires Logged(processed, seen0)
      modifies this`tick, this`processed, indexer`machine, indexer`states, indexer`ops, indexer.store`documents,
        indexer.store`content, indexer.store`chunks, indexer.store`nextId, indexer.store`gens, indexer.store`current
      ensures Idle() && SameSweeps(old(indexer.machine), indexer.machine)
      ensures old(indexer.ops) <= indexer.ops && old(indexer.states) <= indexer.states
      ensures indexer.store.content.Keys <= universe
      ensures Logged(processed, seen) && (ok ==> seen == seen0 + HashSet(batch))
    {
      hide Indexer.Valid, Workable, OthersUntouched, CountsKept, NoneFinished, Logged, Ranking.Distinct, HashSet, Confined, Earned;
      seen := seen0;
      NoneSeen(seen0, batch);
      for i := 0 to |batch|
        invariant Idle() && SameSweeps(old(indexer.machine), indexer.machine)
        invariant old(indexer.ops) <= indexer.ops && old(indexer.states) <= indexer.states
        invariant Workable(indexer.store.T(), batch, i) && indexer.store.content.Keys <= universe
        invariant Logged(processed, seen) && seen == seen0 + HashSet(batch[..i])
      {
        if w.stop(tick) {
          return seen, false;
        }
        ghost var t := indexer.store.T();
        Interlude(w, universe);
        WorkableKept(t, indexer.store.T(), batch, i);
        if w.stop(tick) {
          return seen, false;
        }
        t := indexer.store.T();
        ghost var before := processed;
        NextUnseen(batch, seen0, i);
        WorkableNow(t, batch, i);
        ok := ProcessOne(w, batch[i], universe);
        WorkableAfter(t, indexer.store.T(), batch, i);
        LogNext(before, processed, seen, batch[i]);
        seen := seen + {batch[i]};
        if !ok {
          return seen, false;
        }
      }
      assert batch[..|batch|] == batch;
      return seen, true;
    }

    /** The claim, less what this drain has already worked. */
    method ClaimUnseen(w: World, seen: set<Hash>) returns (ok: bool, unseen: seq<Hash>)
      requires Idle() && batchSize > 0
      modifies this`tick
      ensures Idle()
      ensures Ranking.Distinct(unseen) && Workable(indexer.store.T(), unseen, 0)
      ensures forall h :: h in unseen ==> h !in seen && h in indexer.store.content
    {
      hide Indexer.Valid, Workable, Ranking.Distinct, FairClaim;
      var now, fault := w.now(tick), w.fault(tick);
      tick := tick + 1;
      NothingWorkable(indexer.store.T());
      if fault {
        return false, [];
      }
      var claimed := ClaimBatch(indexer.store.content, now, batchSize);
      unseen := Filter(claimed, seen);
      ClaimedAreWorkable(indexer.store.T(), now, batchSize, claimed, unseen, seen);
      return true, unseen;
    }

    /** The health gate, and behind it the dims sweep if it is still owed: `again` says to claim afresh. */
    method Gate(w: World, prepared: bool) returns (ok: bool, again: bool)
      requires Idle() && sweptVersions && (prepared ==> indexer.machine.prepared && sweptDims)
      modifies this`tick, this`sweptDims, indexer`machine, indexer`states, indexer`ops,
        indexer.store`content, indexer.store`gens, indexer.store`current
      ensures Idle() && sweptVersions && old(indexer.ops) <= indexer.ops && old(indexer.states) <= indexer.states
      ensures indexer.store.content.Keys == old(indexer.store.content.Keys)
      ensures ok ==> indexer.machine.prepared && sweptDims && (again <==> !old(sweptDims))
      ensures !again ==> indexer.store.content == old(indexer.store.content)
      ensures old(sweptDims) ==> sweptDims
    {
      hide Indexer.Valid;
      if prepared {
        return true, false;
      }
      ok := Prepare(w);
      if !ok || sweptDims {
        return ok, false;
      }
      ok := SweepDims(w);
      return ok, true;
    }

    /** One turn of the drain's loop. */
    method Turn(w: World, seen0: set<Hash>, prepared0: bool, ghost universe: set<Hash>)
      returns (more: bool, seen: set<Hash>, prepared: bool)
      requires Idle() && Confined(w, universe) && indexer.store.content.Keys <= universe && batchSize > 0
      requires Logged(processed, seen0) && (prepared0 ==> indexer.machine.prepared && sweptDims)
      modifies this, indexer`machine, indexer`states, indexer`ops, indexer.store`documents,
        indexer.store`content, indexer.store`chunks, indexer.store`nextId, indexer.store`gens, indexer.store`current
      ensures Idle() && indexer.store.content.Keys <= universe
      ensures old(indexer.ops) <= indexer.ops && old(indexer.states) <= indexer.states
      ensures Logged(processed, seen) && (prepared ==> indexer.machine.prepared && sweptDims)
      ensures more ==> Owed(sweptVersions, sweptDims) < old(Owed(sweptVersions, sweptDims))
                       || (Owed(sweptVersions, sweptDims) == old(Owed(sweptVersions, sweptDims)) && |universe - seen| < |universe - seen0|)
    {
      hide Indexer.Valid, Workable, NoneFinished, Logged, Ranking.Distinct, HashSet, Confined;
      seen, prepared := seen0, prepared0;
      if w.stop(tick) {
        return false, seen, prepared;
      }
      Interlude(w, universe);
      if !sweptVersions {
        more := SweepVersions(w);
        return;
      }
      var ok, unseen := ClaimUnseen(w, seen);
      if !ok || (|unseen| == 0 && sweptDims) {
        return false, seen, prepared;
      }
      ghost var t := indexer.store.T();
      var again;
      ok, again := Gate(w, prepared);
      prepared := ok;
      if !ok || again || |unseen| == 0 {
        return ok && again, seen, prepared;
      }
      WorkableStill(t, indexer.store.T(), unseen, universe);
      seen, ok := Process(w, unseen, seen, universe);
      if !ok || w.unplugged(tick) {
        return false, seen, prepared;
      }
      SeenGrows(universe, seen0, unseen, seen);
      tick := tick + 1;
      return true, seen, prepared;
    }

    /** drain: work the queue until it is empty, gated or cancelled. It ends, because a turn either stops
        the drain, does one of the two sweeps, or puts at least one unseen content behind it; and each
        content goes through the pipeline at most once. */
    method Drain(w: World, ghost universe: set<Hash>)
      requires Idle() && Confined(w, universe) && indexer.store.content.Keys <= universe && batchSize > 0
      modifies this, indexer`machine, indexer`states, indexer`ops, indexer.store`documents,
        indexer.store`content, indexer.store`chunks, indexer.store`nextId, indexer.store`gens, indexer.store`current
      ensures Idle() && Ranking.Distinct(processed)
      ensures old(indexer.ops) <= indexer.ops && old(indexer.states) <= indexer.states
      ensures sweptVersions && sweptDims ==> Whole(indexer.spelling, indexer.machine)
    {
      hide Indexer.Valid, Logged, Ranking.Distinct, Confined, Whole;
      processed := [];
      NothingLogged();
      var more, seen: set<Hash>, prepared := true, {}, false;
      while more
        invariant Idle() && indexer.store.content.Keys <= universe
        invariant old(indexer.ops) <= indexer.ops && old(indexer.states) <= indexer.states
        invariant Logged(processed, seen) && (prepared ==> indexer.machine.prepared && sweptDims)
        decreases Owed(sweptVersions, sweptDims), |universe - seen|, more
      {
        more, seen, prepared := Turn(w, seen, prepared, universe);
        if !more {
          break;
        }
      }
      LogIsDistinct(processed, seen);
      SweptSchedulerIsWhole(indexer);
    }

    /** The claimed rows this drain has not yet worked. */
    method Filter(claimed: seq<Hash>, seen: set<Hash>) returns (unseen: seq<Hash>)
      ensures forall h :: h in unseen <==> h in claimed && h !in seen
      ensures Ranking.Distinct(claimed) ==> Ranking.Distinct(unseen)
    {
      unseen := [];
      for i := 0 to |claimed|
        invariant forall h :: h in unseen <==> h in claimed[..i] && h !in seen
        invariant Ranking.Distinct(claimed) ==> Ranking.Distinct(unseen)
      {
        assert claimed[..i + 1] == claimed[..i] + [claimed[i]];
        if claimed[i] !in seen {
          unseen := unseen + [claimed[i]];
        }
      }
      assert claimed[..|claimed|] == claimed;
    }
  }

  // ---------------------------------------------------------------------------------------
  // Bookkeeping

  function HashSet(batch: seq<Hash>): set<Hash> { set h | h in batch }

  /** What is left of the batch is still to be finished, or gone. */
  ghost predicate Workable(t: Tables, batch: seq<Hash>, i: nat) {
    forall j :: i <= j < |batch| && batch[j] in t.content ==> !t.content[batch[j]].state.Terminal()
  }

  /** What has been worked has been seen, and nothing has been worked twice. */
  ghost predicate Logged(processed: seq<Hash>, seen: set<Hash>) {
    Ranking.Distinct(processed) && forall h :: h in processed ==> h in seen
  }

  lemma NothingLogged()
    ensures Logged([], {})
  {
  }

  lemma LogIsDistinct(processed: seq<Hash>, seen: set<Hash>)
    requires Logged(processed, seen)
    ensures Ranking.Distinct(processed)
  {
  }

  lemma LogNext(before: seq<Hash>, after: seq<Hash>, seen: set<Hash>, h: Hash)
    requires Logged(before, seen) && h !in seen && (after == before || after == before + [h])
    ensures Logged(after, seen + {h})
  {
  }

  lemma NoneSeen(seen: set<Hash>, batch: seq<Hash>)
    ensures seen == seen + HashSet(batch[..0])
  {
  }

  lemma NextUnseen(batch: seq<Hash>, seen0: set<Hash>, i: nat)
    requires i < |batch| && Ranking.Distinct(batch) && forall h :: h in batch ==> h !in seen0
    ensures batch[i] !in seen0 + HashSet(batch[..i])
    ensures seen0 + HashSet(batch[..i + 1]) == (seen0 + HashSet(batch[..i])) + {batch[i]}
  {
    assert batch[..i + 1] == batch[..i] + [batch[i]];
    assert batch[i] in batch;
  }

  lemma WorkableKept(t: Tables, after: Tables, batch: seq<Hash>, i: nat)
    requires Workable(t, batch, i) && NoneFinished(t, after, {})
    ensures Workable(after, batch, i)
  {
  }

  lemma WorkableNow(t: Tables, batch: seq<Hash>, i: nat)
    requires i < |batch| && Workable(t, batch, i)
    ensures batch[i] in t.content ==> !t.content[batch[i]].state.Terminal()
  {
  }

  lemma WorkableAfter(t: Tables, after: Tables, batch: seq<Hash>, i: nat)
    requires i < |batch| && Ranking.Distinct(batch) && Workable(t, batch, i) && NoneFinished(t, after, {batch[i]})
    ensures Workable(after, batch, i + 1)
  {
  }

  /** How many of the two sweeps are still to do. */
  function Owed(sweptVersions: bool, sweptDims: bool): nat {
    (if sweptVersions then 0 else 1) + (if sweptDims then 0 else 1)
  }

  lemma NothingWorkable(t: Tables)
    ensures Workable(t, [], 0) && Ranking.Distinct<Hash>([])
  {
  }

  lemma WorkableStill(t: Tables, after: Tables, unseen: seq<Hash>, universe: set<Hash>)
    requires unseen != [] && Workable(t, unseen, 0) && after.content == t.content && t.content.Keys <= universe
    requires unseen[0] in t.content
    ensures Workable(after, unseen, 0) && unseen[0] in universe
  {
  }

  lemma ClaimedAreWorkable(t: Tables, now: int, limit: nat, claimed: seq<Hash>, unseen: seq<Hash>, seen: set<Hash>)
    requires FairClaim(t.content, now, limit, claimed)
    requires forall h :: h in unseen <==> h in claimed && h !in seen
    requires Ranking.Distinct(claimed) ==> Ranking.Distinct(unseen)
    ensures Ranking.Distinct(unseen) && Workable(t, unseen, 0)
    ensures forall h :: h in unseen ==> h !in seen && h in t.content
  {
    forall j | 0 <= j < |unseen| ensures unseen[j] in DueRows(t.content, now) {
      assert unseen[j] in unseen;
    }
  }

  lemma SeenGrows(universe: set<Hash>, seen0: set<Hash>, unseen: seq<Hash>, seen: set<Hash>)
    requires seen == seen0 + HashSet(unseen) && unseen != [] && unseen[0] !in seen0 && unseen[0] in universe
    ensures |universe - seen| < |universe - seen0|
  {
    assert unseen[0] in HashSet(unseen);
    assert universe - seen <= universe - seen0 - {unseen[0]};
    CatalogProofs.SubsetSize(universe - seen, universe - seen0 - {unseen[0]});
  }

  /** Fifteen minutes. */
  const BACKOFF_CAP := 900

  // ---------------------------------------------------------------------------------------
  // What is charged, and what is left alone

  /** One of the steps from n on is a re-probe that passed. */
  ghost predicate Probed(ops: seq<Op>, n: nat) { exists j :: n <= j < |ops| && ops[j].ProbePasses? }

  /** Or a superseded write. */
  ghost predicate Earned(ops: seq<Op>, n: nat) {
    Probed(ops, n) || exists j :: n <= j < |ops| && ops[j].VectorsSuperseded?
  }

  lemma EarnedBy(o: Outcome, n: nat, mid: seq<Op>, ops: seq<Op>)
    requires mid <= ops && n < |mid| && (o.OutcomeSuperseded? ==> EndsSuperseded(mid, n + 1))
    ensures o.OutcomeSuperseded? || Probed(ops, |mid|) ==> Earned(ops, n)
  {
    if o.OutcomeSuperseded? {
      assert ops[|mid| - 1] == mid[|mid| - 1];
    }
  }

  lemma NothingDone(t: Tables, h: Hash)
    ensures OthersUntouched(t, t, h) && CountsKept(t, t, {h}) && CountsKept(t, t, {}) && NoneFinished(t, t, {h})
  {
  }

  lemma RescheduledNot(t: Tables, h: Hash)
    ensures OthersUntouched(t, t, h) && CountsKept(t, t, {h}) && CountsKept(t, t, {})
  {
  }

  lemma Rescheduled(t: Tables, h: Hash, attempts: int, at: int, now: int)
    requires h in t.content
    ensures var after := RescheduleSpec(t, h, attempts, at, now);
            && OthersUntouched(t, after, h) && CountsKept(t, after, {h})
            && (attempts == t.content[h].attempts ==> CountsKept(t, after, {}))
  {
  }

  /** The row was charged: the new count, and when it is due again, at once if that was its last attempt. */
  ghost predicate ChargedAs(was: Content, t: Tables, h: Hash, attempts: int, last: bool, now: int, wait: nat) {
    && h in t.content && t.content[h].attempts == attempts && t.content[h].versions == was.versions
    && t.content[h].nextRetryAt == Text.Some(if last then now else now + wait) && t.content[h].updatedAt == now
  }

  lemma ChargedThenFailed(t: Tables, h: Hash, attempts: int, at: int, now: int, last: bool, wait: nat)
    requires h in t.content && at == if last then now else now + wait
    ensures var charged := RescheduleSpec(t, h, attempts, at, now);
            var failed := MarkFailedSpec(charged, h, now);
            && ChargedAs(t.content[h], charged, h, attempts, last, now, wait)
            && ChargedAs(t.content[h], failed, h, attempts, last, now, wait)
            && charged.content[h].state == t.content[h].state && charged.chunks == t.chunks && charged.gens == t.gens
  {
  }

  lemma EnsuredWorked(t: Tables, want: Descriptor, after: Tables, h: Hash)
    requires Ensured(t, want, after)
    ensures Worked(t, after, h)
  {
    hide Descriptor.Identity, HasMatch, IsNextGen;
  }

  lemma FewerKept(t: Tables, after: Tables, except: set<Hash>)
    requires CountsKept(t, after, {})
    ensures CountsKept(t, after, except)
  {
  }

  lemma ThenWorked(a: Tables, b: Tables, c: Tables, h: Hash)
    requires OthersUntouched(a, b, h) && CountsKept(a, b, {h}) && Worked(b, c, h)
    ensures OthersUntouched(a, c, h) && CountsKept(a, c, {h})
  {
    hide ChunksOfOthers, VectorsOfOthers;
    UntouchedTwice(a, b, c, h);
  }

  lemma WorkedThen(a: Tables, b: Tables, c: Tables, h: Hash)
    requires Worked(a, b, h) && OthersUntouched(b, c, h) && CountsKept(b, c, {h})
    ensures OthersUntouched(a, c, h) && CountsKept(a, c, {h})
  {
    hide ChunksOfOthers, VectorsOfOthers;
    UntouchedTwice(a, b, c, h);
  }

  /** One content from its claim to its fate: what was kept during the work, and what settling kept. */
  lemma SettledAfter(a: Tables, b: Tables, c: Tables, h: Hash, txs: seq<CatalogProofs.Op>)
    requires Kept(a, b, h, txs) && OthersUntouched(b, c, h) && CountsKept(b, c, {h})
    ensures NoneFinished(a, c, {h}) && CountsKept(a, c, {h})
    ensures CountsKept(b, c, {}) ==> CountsKept(a, c, {})
    ensures txs == [] ==> OthersUntouched(a, c, h)
  {
    hide ChunksOfOthers, VectorsOfOthers, BroughtBy;
    if txs == [] {
      UntouchedTwice(a, b, c, h);
    }
  }

  lemma StillConfined(w: World, k: nat, a: Tables, b: Tables, c: Tables, h: Hash, universe: set<Hash>)
    requires Confined(w, universe) && a.content.Keys <= universe
    requires Kept(a, b, h, w.attempt(k).meanwhile) && OthersUntouched(b, c, h)
    ensures c.content.Keys <= universe
  {
    hide ChunksOfOthers, VectorsOfOthers, CountsKept, NoneFinished;
    forall x | x in b.content ensures x in universe {
      if x !in a.content {
        var tx :| tx in w.attempt(k).meanwhile && x in Brings(tx);
      }
    }
  }

  /** Over the whole run an indexer stands at the end of: whoever's process it was, an attempt was written only
      straight after a re-probe that passed or a superseded write. */
  lemma EveryChargeIsEarned(indexer: Indexer, i: nat, h: Hash)
    requires indexer.Valid() && i < |indexer.ops|
    requires h in indexer.states[i].t.content && h in indexer.states[i + 1].t.content
    requires indexer.states[i + 1].t.content[h].attempts > indexer.states[i].t.content[h].attempts
    ensures i > 0 && indexer.ops[i].Charge? && indexer.states[i].work == Charging(h)
    ensures indexer.ops[i - 1].ProbePasses? || indexer.ops[i - 1].VectorsSuperseded?
  {
    hide Healthy, Run, Injective;
    AttemptsRiseOnlyWhenCharged(indexer.spelling, indexer.states, indexer.ops, indexer.states[0].cfg, i, h);
  }

  /** And so long as no process lost the write that gives a content up, every unfinished row of the catalog has
      attempts below the cap. */
  lemma EveryRowHasAttemptsLeft(indexer: Indexer)
    requires indexer.Valid() && indexer.cfg.maxAttempts > 0
    requires WritesLand(indexer.states, indexer.ops, indexer.cfg.maxAttempts)
    ensures WithinBudget(indexer.machine)
  {
    hide Healthy, Run, Injective, WithinBudget;
    assert indexer.states[0].cfg.maxAttempts == indexer.cfg.maxAttempts;
    AttemptsStayBelowTheCap(indexer.spelling, indexer.states, indexer.ops, indexer.states[0].cfg);
    assert WithinBudget(indexer.states[|indexer.ops|]);
  }

  /** Once a process has done its two sweeps its index is whole, and stays so. */
  lemma SweptSchedulerIsWhole(indexer: Indexer)
    requires indexer.Valid()
    ensures indexer.machine.sweptVersions && indexer.machine.sweptDims ==> Whole(indexer.spelling, indexer.machine)
  {
    hide Whole, Run;
    if indexer.machine.sweptVersions && indexer.machine.sweptDims {
      NoStaleOrHalfEmbeddedIndex(indexer.spelling, indexer.states, indexer.ops, indexer.states[0].cfg, |indexer.ops|);
    }
  }

  lemma ClaimStep(s: Spelling, m: Machine, h: Hash)
    requires m.work.NoWork? && m.sweptVersions && m.prepared && m.sweptDims
    requires h in m.t.content && !m.t.content[h].state.Terminal()
    ensures Step(s, m, Op.Claim(h), Taken(m, h))
  {
  }

  lemma ChargeStep(s: Spelling, m: Machine, at: int, now: int)
    requires m.work.Charging?
    ensures m.work.h in m.t.content ==>
              Step(s, m, Op.Charge(at, now),
                   With(m, RescheduleSpec(m.t, m.work.h, m.claimed + 1, at, now),
                        if m.claimed + 1 >= m.cfg.maxAttempts then GivingUp(m.work.h) else NoWork))
  {
    hide RescheduleSpec;
  }

  lemma DeferStep(s: Spelling, m: Machine, at: int, now: int)
    requires m.work.Claimed? && m.work.h in m.t.content
    ensures Step(s, m, Op.Defer(at, now), With(m, RescheduleSpec(m.t, m.work.h, m.t.content[m.work.h].attempts, at, now), NoWork))
  {
    hide RescheduleSpec;
  }

  lemma TransientStep(s: Spelling, m: Machine)
    requires m.work.Awaiting?
    ensures Step(s, m, EmbedTransient, m.(work := Probing(m.work.h)))
  {
  }

  lemma ProbeStep(s: Spelling, m: Machine, t: Tables)
    requires m.work.Probing? && Ensured(m.t, Wanted(m.cfg.embedder, m.cfg.dims), t)
    ensures Step(s, m, ProbePasses, With(m, t, Charging(m.work.h)))
  {
    hide Ensured;
  }

  lemma HealthyInv(indexer: Indexer)
    requires indexer.Valid()
    ensures Inv(indexer.store.T())
  {
    hide Inv;
  }

  lemma PreparedNow(indexer: Indexer)
    requires indexer.Valid() && indexer.machine.prepared
    ensures Prepared(indexer.machine)
  {
    hide Inv, Prepared, FinishedCurrent, Pipeline.Embedded, Run, Injective;
  }

  lemma SweepVersionsStep(s: Spelling, m: Machine)
    requires m.work.NoWork? && !m.sweptVersions
    ensures Step(s, m, Op.SweepVersions, m.(t := ResetStaleSpec(m.t, KnownStages(s, m.cfg)), sweptVersions := true))
  {
    hide ResetStaleSpec, KnownStages;
  }

  lemma SweepDimsStep(s: Spelling, m: Machine)
    requires m.work.NoWork? && m.prepared && !m.sweptDims
    ensures Step(s, m, Op.SweepDims, m.(t := ResetStaleSpec(m.t, DimsStage(s, m.cfg)), sweptDims := true))
  {
    hide ResetStaleSpec, DimsStage;
  }

  lemma PreparesStep(s: Spelling, m: Machine, t: Tables)
    requires m.work.NoWork? && m.sweptVersions && Ensured(m.t, Wanted(m.cfg.embedder, m.cfg.dims), t)
    ensures Step(s, m, Op.Prepare, m.(t := t, prepared := true))
  {
    hide Ensured;
  }
}
