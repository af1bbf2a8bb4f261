/** Remembered mount points over whole runs of the deletion pass (internal/discovery/deleted.go):
    what stays remembered, and what remembering protects. */
module Mounts {
  import opened Bytes
  import opened Paths
  import opened Catalog
  import opened Stores
  import opened Reconcile

  // ---------------------------------------------------------------------------------------
  // One pass

  /** What a pass may leave in the memory, however it ends. */
  ghost predicate MemoryStep(p: Pass, rows: set<Path>, memory: MountMemory, after: MountMemory) {
    if p.roots == [] then after == memory
    else after == LearnStep(p, memory).0 || after == ForgetStep(p, memory, rows)
  }

  predicate Remembers(memory: MountMemory, m: Path) {
    memory.Recorded? && m in memory.mounts
  }

  lemma LearnedMembers(known: seq<Path>, live: seq<Path>, roots: seq<Path>)
    ensures forall m :: m in Learned(known, live, roots) <==> m in known || (m in live && InScopeMount(m, roots))
    ensures StrictlySorted(Learned(known, live, roots))
  {
    SortedMembers((set m | m in known) + (set m | m in live && InScopeMount(m, roots)));
  }

  lemma {:induction false} KeptMembers(known: seq<Path>, live: seq<Path>, rows: set<Path>)
    ensures forall m :: m in Kept(known, live, rows) <==> m in known && (Occupied(m, rows) || m in live)
    ensures StrictlySorted(known) ==> StrictlySorted(Kept(known, live, rows))
  {
    hide Occupied;
    if known != [] {
      var rest := Kept(known[1..], live, rows);
      KeptMembers(known[1..], live, rows);
      assert known == [known[0]] + known[1..];
      if StrictlySorted(known) {
        forall j | 0 <= j < |rest| ensures Less(known[0], rest[j]) {
          assert rest[j] in rest;
        }
      }
    }
  }

  /** A mount visible on a pass that can read both sides and write is recorded by it. */
  lemma LearningRecords(p: Pass, memory: MountMemory, m: Path)
    requires TableReadable(p.table) && m in LiveOf(p.table) && InScopeMount(m, p.roots)
    requires !p.readFault && !p.learnFault
    ensures Remembers(LearnStep(p, memory).0, m) && m in LearnStep(p, memory).1
  {
    hide InScopeMount;
    LearnedMembers(KnownOf(Answer(memory, p.readFault)), LiveOf(p.table), p.roots);
  }

  lemma LearningKeeps(p: Pass, memory: MountMemory, m: Path)
    requires Remembers(memory, m)
    ensures Remembers(LearnStep(p, memory).0, m)
    ensures !p.readFault ==> m in LearnStep(p, memory).1
  {
    LearnedMembers(KnownOf(Answer(memory, p.readFault)), LiveOf(p.table), p.roots);
  }

  /** A pass forgets a mount only when it is neither mounted nor above any row. */
  lemma PassKeeps(p: Pass, rows: set<Path>, memory: MountMemory, after: MountMemory, m: Path)
    requires MemoryStep(p, rows, memory, after) && Remembers(memory, m)
    requires m in LiveOf(p.table) || Occupied(m, rows)
    ensures Remembers(after, m)
  {
    hide Occupied;
    LearningKeeps(p, memory, m);
    KeptMembers(LearnStep(p, memory).1, LiveOf(p.table), rows);
  }

  // ---------------------------------------------------------------------------------------
  // Runs of passes

  /** Pass i finds documents before[i] and memories[i], and leaves documents after[i]; between
      passes the catalog is anyone's, the memory is not. */
  ghost predicate Passes(passes: seq<Pass>, before: seq<map<Path, Row>>, after: seq<map<Path, Row>>,
                         tallies: seq<Tally>, memories: seq<MountMemory>) {
    && |before| == |after| == |tallies| == |passes| && |memories| == |passes| + 1
    && forall i :: 0 <= i < |passes| ==> OnePass(passes[i], before[i], after[i], tallies[i], memories[i], memories[i + 1])
  }

  /** What ReconcileDeleted promises of one pass. */
  ghost predicate OnePass(p: Pass, before: map<Path, Row>, after: map<Path, Row>, t: Tally,
                          memory: MountMemory, memory': MountMemory) {
    && Conserves(p, Answer(memory, p.readFault), before, after, t)
    && MemoryStep(p, before.Keys, memory, memory')
  }

  method ReconcilePass(r: Reconciler, p: Pass) returns (t: Tally)
    requires forall d :: d in r.store.documents ==> Cleaned(d)
    requires WellFormed(p, r.store.memory)
    modifies r.store
    ensures OnePass(p, old(r.store.documents), r.store.documents, t, old(r.store.memory), r.store.memory)
  {
    hide Conserves, JudgedAll;
    var cancelled;
    t, cancelled := r.ReconcileDeleted(p);
  }

  /** The mount is mounted, or has rows beneath it, at every pass. */
  ghost predicate StandsFor(m: Path, passes: seq<Pass>, before: seq<map<Path, Row>>)
    requires |before| == |passes|
  {
    forall i :: 0 <= i < |passes| ==> m in LiveOf(passes[i].table) || Occupied(m, before[i].Keys)
  }

  lemma {:induction false} StaysRemembered(
    passes: seq<Pass>, before: seq<map<Path, Row>>, after: seq<map<Path, Row>>,
    tallies: seq<Tally>, memories: seq<MountMemory>, m: Path, i: nat)
    requires Passes(passes, before, after, tallies, memories) && i <= |passes|
    requires Remembers(memories[0], m) && StandsFor(m, passes, before)
    ensures Remembers(memories[i], m)
    decreases i
  {
    hide Conserves, MemoryStep;
    if i > 0 {
      StaysRemembered(passes, before, after, tallies, memories, m, i - 1);
      assert OnePass(passes[i - 1], before[i - 1], after[i - 1], tallies[i - 1], memories[i - 1], memories[i - 1 + 1]);
      PassKeeps(passes[i - 1], before[i - 1].Keys, memories[i - 1], memories[i], m);
    }
  }

  /** A row beneath a remembered volume that is not mounted is never judged missing; when the
      memory could be read it is not judged at all. */
  lemma AbsentIsNotDeleted(p: Pass, memory: MountMemory, m: Path, r: Path)
    requires Remembers(memory, m) && m != []
    requires TableReadable(p.table) && p.table.supported && m !in p.table.live
    requires WithinAny(r, p.roots) && !p.excluded(r) && r != ROOT && StrictlyWithin(r, m)
    ensures !p.readFault ==> Judge(p, Answer(memory, p.readFault), r) == Unverified
    ensures p.lstat(r) == Missing ==> Judge(p, Answer(memory, p.readFault), r) == Unverified
  {
    var a := Answer(memory, p.readFault);
    if !p.readFault {
      assert m in UnknownOf(p, a);
    }
  }

  /** Mount protection over whole runs. Once a mount is remembered, and while at each pass it is
      mounted or has a row beneath it, it stays remembered; and on every pass where a readable table
      does not show it, no in-scope row strictly beneath it goes for being missing: none at all when
      the memory could be read, and when it could not, none whose stat says ENOENT. */
  lemma MountProtection(
    passes: seq<Pass>, before: seq<map<Path, Row>>, after: seq<map<Path, Row>>,
    tallies: seq<Tally>, memories: seq<MountMemory>, m: Path, i: nat, r: Path)
    requires Passes(passes, before, after, tallies, memories) && i < |passes| && m != []
    requires Remembers(memories[0], m) && StandsFor(m, passes, before)
    requires var p := passes[i];
             && TableReadable(p.table) && p.table.supported && m !in p.table.live
             && WithinAny(r, p.roots) && !p.excluded(r) && r != ROOT && StrictlyWithin(r, m)
             && (p.readFault ==> p.lstat(r) == Missing)
    requires r in before[i]
    ensures Remembers(memories[i], m)
    ensures r in after[i] && after[i][r] == before[i][r]
  {
    hide Judge, MemoryStep, WithinAny;
    StaysRemembered(passes, before, after, tallies, memories, m, i);
    AbsentIsNotDeleted(passes[i], memories[i], m, r);
    assert OnePass(passes[i], before[i], after[i], tallies[i], memories[i], memories[i + 1]);
  }

  /** With no mount table to go by, nothing strictly beneath a root is deleted. */
  lemma BlindTableDeletesNothing(p: Pass, memory: MountMemory, before: map<Path, Row>, after: map<Path, Row>,
                                 t: Tally, root: Path, r: Path)
    requires Conserves(p, Answer(memory, p.readFault), before, after, t)
    requires !TableReadable(p.table) && r != ROOT && root in p.roots && StrictlyWithin(r, root)
    requires r in before && !p.excluded(r)
    ensures r in after && after[r] == before[r]
  {
    var a := Answer(memory, p.readFault);
    assert root in UnknownOf(p, a);
    assert Judge(p, a, r) == Unverified;
  }

  // ---------------------------------------------------------------------------------------
  // Learn then forget

  /** With mounts, roots and rows unchanged, a second pass learns and forgets nothing: the memory
      holds exactly the remembered or visible mounts that are mounted or still above a row. */
  lemma LearnThenForgetIsFixpoint(p: Pass, memory: MountMemory, rows: set<Path>)
    requires TableReadable(p.table) && !p.readFault && !p.learnFault && !p.forgetFault
    ensures var once := ForgetStep(p, memory, rows);
            && once.Recorded? && StrictlySorted(once.mounts)
            && (forall m :: m in once.mounts <==>
                  && (m in KnownOf(Answer(memory, false)) || (m in LiveOf(p.table) && InScopeMount(m, p.roots)))
                  && (Occupied(m, rows) || m in LiveOf(p.table)))
            && Learned(once.mounts, LiveOf(p.table), p.roots) == once.mounts
            && Kept(once.mounts, LiveOf(p.table), rows) == once.mounts
            && LearnStep(p, once) == (once, once.mounts) && ForgetStep(p, once, rows) == once
  {
    hide Occupied, InScopeMount, Learned, Kept;
    var known, live := KnownOf(Answer(memory, false)), LiveOf(p.table);
    var learned := Learned(known, live, p.roots);
    LearnedMembers(known, live, p.roots);
    KeptMembers(learned, live, rows);
    var once := Kept(learned, live, rows);
    assert ForgetStep(p, memory, rows) == Recorded(once);
    LearnedMembers(once, live, p.roots);
    SortedIsUnique(Learned(once, live, p.roots), once);
    KeptMembers(once, live, rows);
    SortedIsUnique(Kept(once, live, rows), once);
  }

  /** The passes ask the same question of the same volumes, and can record the answer. */
  predicate SameVolumes(p: Pass, q: Pass) {
    && q.roots == p.roots && q.table == p.table && TableReadable(p.table)
    && !p.readFault && !p.learnFault && !p.forgetFault && !q.readFault && !q.learnFault && !q.forgetFault
  }

  /** With every remembered volume mounted, one pass settles the memory whatever rows come and go. */
  lemma MemorySettles(p: Pass, q: Pass, memory: MountMemory, rows: set<Path>, rows': set<Path>)
    requires SameVolumes(p, q)
    requires forall m :: m in KnownOf(Answer(memory, false)) ==> m in LiveOf(p.table)
    ensures ForgetStep(q, ForgetStep(p, memory, rows), rows') == ForgetStep(p, memory, rows)
  {
    hide Occupied, InScopeMount, Learned, Kept;
    LearnThenForgetIsFixpoint(p, memory, rows);
    var once := ForgetStep(p, memory, rows);
    KeptMembers(once.mounts, LiveOf(p.table), rows');
    SortedIsUnique(Kept(once.mounts, LiveOf(p.table), rows'), once.mounts);
  }
}
