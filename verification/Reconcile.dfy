/** The deletion pass of a walk (internal/discovery/deleted.go): one verdict per catalog row, and
    the remembered mount points that keep an unplugged volume from reading as a deletion. */
module Reconcile {
  import opened Bytes
  import opened Paths
  import opened Catalog
  import opened CatalogProofs
  import opened Stores

  const FLUSH_EVERY := 256

  /** os.Lstat: what is there, and whether a walk would index it; nothing; or "cannot tell". */
  datatype Stat = Present(indexable: bool) | Missing | CannotTell

  datatype MountTable = Table(live: seq<Path>, supported: bool) | TableError

  /** What one pass sees: what the walk covered, the configuration, the filesystem and the mount
      table, and which of its store calls fail. */
  datatype Pass = Pass(
    roots: seq<Path>,
    unresolved: bool,
    unread: set<Path>,
    excluded: Path -> bool,
    lstat: Path -> Stat,
    table: MountTable,
    readFault: bool,
    learnFault: bool,
    forgetFault: bool,
    pagesRead: nat,
    rowsJudged: nat,
    deletesLanding: nat)

  datatype Verdict = Keep | Delete | Prune | Ignore | Unverified

  // ---------------------------------------------------------------------------------------
  // What the pass knows about volumes

  function Answer(memory: MountMemory, fault: bool): MountsAnswer {
    if fault then Unreadable
    else match memory
      case Absent => Known([], false)
      case Recorded(mounts) => Known(mounts, true)
      case Garbled => Corrupt
  }

  function KnownOf(a: MountsAnswer): seq<Path> { if a.Known? then a.mounts else [] }

  predicate RememberedOf(a: MountsAnswer) { a.Known? && a.remembered }

  /** An empty answer from a platform that supports the question is not an answer. */
  predicate TableReadable(t: MountTable) {
    t.Table? && (!t.supported || t.live != [])
  }

  function LiveOf(t: MountTable): seq<Path> { if TableReadable(t) then t.live else [] }

  /** Remembered, and not mounted now. */
  function AbsentMounts(p: Pass, a: MountsAnswer): set<Path> {
    if TableReadable(p.table) && p.table.supported
    then set m | m in KnownOf(a) && m !in p.table.live else {}
  }

  /** The prefixes this pass cannot vouch for. */
  function UnknownOf(p: Pass, a: MountsAnswer): set<Path> {
    p.unread + AbsentMounts(p, a) + (if TableReadable(p.table) then {} else set r | r in p.roots)
  }

  predicate InScopeMount(mount: Path, roots: seq<Path>) {
    exists r :: r in roots && (Within(mount, r) || Within(r, mount))
  }

  function Sorted(s: set<Path>): seq<Path> { Take(s, |s|) }

  lemma SortedMembers(s: set<Path>)
    ensures forall m :: m in Sorted(s) <==> m in s
    ensures StrictlySorted(Sorted(s))
  {
    TakeFacts(s, |s|);
    TakeAllIsAll(s);
  }

  /** learnMounts: the remembered set and the in-scope mounts visible now. */
  function Learned(known: seq<Path>, live: seq<Path>, roots: seq<Path>): seq<Path> {
    Sorted((set m | m in known) + (set m | m in live && InScopeMount(m, roots)))
  }

  predicate Occupied(mount: Path, rows: set<Path>) {
    exists r :: r in rows && Within(r, mount)
  }

  /** forgetEmptyMounts: what still protects rows, or is mounted. */
  function Kept(known: seq<Path>, live: seq<Path>, rows: set<Path>): seq<Path> {
    if known == [] then []
    else (if Occupied(known[0], rows) || known[0] in live then [known[0]] else []) + Kept(known[1..], live, rows)
  }

  // ---------------------------------------------------------------------------------------
  // The verdict on one row

  ghost predicate UnderAnyOf(path: Path, unknown: set<Path>) {
    if path == ROOT then ROOT in unknown else exists m :: m in unknown && StrictlyWithin(path, m)
  }

  /** The first guard that answers wins. */
  ghost function Judge(p: Pass, a: MountsAnswer, path: Path): Verdict {
    if !WithinAny(path, p.roots) || p.excluded(path) then (if p.unresolved then Ignore else Prune)
    else if UnderAnyOf(path, UnknownOf(p, a)) then Unverified
    else match p.lstat(path)
      case Present(indexable) => if indexable then Keep else Delete
      case CannotTell => Unverified
      case Missing => if RememberedOf(a) then Delete else Unverified
  }

  ghost function With(p: Pass, a: MountsAnswer, rows: set<Path>, v: Verdict): set<Path> {
    set r | r in rows && Judge(p, a, r) == v
  }

  ghost function Survivors(p: Pass, a: MountsAnswer, documents: map<Path, Row>): map<Path, Row> {
    documents - With(p, a, documents.Keys, Delete) - With(p, a, documents.Keys, Prune)
  }

  // ---------------------------------------------------------------------------------------
  // What the pass does to the memory

  /** The memory and the known set after learning. */
  function LearnStep(p: Pass, memory: MountMemory): (MountMemory, seq<Path>) {
    var a := Answer(memory, p.readFault);
    var known := KnownOf(a);
    if !TableReadable(p.table) || a.Unreadable? then (memory, known)
    else
      var next := Learned(known, LiveOf(p.table), p.roots);
      if RememberedOf(a) && next == known then (memory, known)
      else if p.learnFault then (memory, known)
      else (Recorded(next), next)
  }

  function ForgetStep(p: Pass, memory: MountMemory, rows: set<Path>): MountMemory {
    var (learned, known) := LearnStep(p, memory);
    if !TableReadable(p.table) || Answer(memory, p.readFault).Unreadable? then learned
    else
      var next := Kept(known, LiveOf(p.table), rows);
      if next == known || p.forgetFault then learned else Recorded(next)
  }

  // ---------------------------------------------------------------------------------------
  // The pass

  datatype Tally = Tally(deleted: int, pruned: int, ignored: int, unverified: int, reconciled: bool)

  /** However the pass ends: rows gone are rows counted, and only doomed rows go. */
  ghost predicate Conserves(p: Pass, a: MountsAnswer, before: map<Path, Row>, after: map<Path, Row>, t: Tally) {
    && |before| - |after| == t.deleted + t.pruned
    && (forall r :: r in after ==> r in before && after[r] == before[r])
    && (forall r :: r in before && r !in after ==> Judge(p, a, r) == Delete || Judge(p, a, r) == Prune)
  }

  /** A pass that ran to completion judged every row exactly once. */
  ghost predicate JudgedAll(p: Pass, a: MountsAnswer, before: map<Path, Row>, after: map<Path, Row>, t: Tally) {
    && after == Survivors(p, a, before)
    && t.deleted == |With(p, a, before.Keys, Delete)|
    && t.pruned == |With(p, a, before.Keys, Prune)|
    && t.ignored == |With(p, a, before.Keys, Ignore)|
    && t.unverified == |With(p, a, before.Keys, Unverified)|
    && |With(p, a, before.Keys, Keep)| + t.deleted + t.pruned + t.ignored + t.unverified == |before|
  }

  /** What a pass promises, however it ends. */
  ghost predicate Reconciled(p: Pass, before: map<Path, Row>, memory: MountMemory,
                             after: map<Path, Row>, memory': MountMemory, t: Tally) {
    && Conserves(p, Answer(memory, p.readFault), before, after, t)
    && (p.roots == [] ==> after == before && memory' == memory && (t.reconciled ==> t.unverified == |before|))
    && (p.roots != [] && t.reconciled ==>
          && JudgedAll(p, Answer(memory, p.readFault), before, after, t)
          && memory' == ForgetStep(p, memory, before.Keys))
    && (p.roots != [] && !t.reconciled ==> memory' == LearnStep(p, memory).0)
  }

  /** One page's verdicts. */
  datatype PageWork = PageWork(vanished: seq<Path>, outOfScope: seq<Path>, ignored: int, unverified: int)

  ghost predicate IsPageWork(p: Pass, a: MountsAnswer, page: set<Path>, w: PageWork) {
    && PathSet(w.vanished) == With(p, a, page, Delete)
    && PathSet(w.outOfScope) == With(p, a, page, Prune)
    && w.ignored == |With(p, a, page, Ignore)|
    && w.unverified == |With(p, a, page, Unverified)|
    && |w.vanished| + |w.outOfScope| <= |page|
  }

  /** One more row's verdict, as the switch records it. */
  function Record(w: PageWork, v: Verdict, path: Path): PageWork {
    match v
    case Keep => w
    case Delete => w.(vanished := w.vanished + [path])
    case Prune => w.(outOfScope := w.outOfScope + [path])
    case Ignore => w.(ignored := w.ignored + 1)
    case Unverified => w.(unverified := w.unverified + 1)
  }

  lemma PathSetAppend(paths: seq<Path>, path: Path)
    ensures PathSet(paths + [path]) == PathSet(paths) + {path}
  {
  }

  lemma RecordStep(p: Pass, a: MountsAnswer, page: set<Path>, w: PageWork, path: Path)
    requires IsPageWork(p, a, page, w) && path !in page
    ensures IsPageWork(p, a, page + {path}, Record(w, Judge(p, a, path), path))
  {
    hide Judge, With, PathSet;
    PathSetAppend(w.vanished, path);
    PathSetAppend(w.outOfScope, path);
    WithOneMore(p, a, page, path, Delete);
    WithOneMore(p, a, page, path, Prune);
    WithOneMore(p, a, page, path, Ignore);
    WithOneMore(p, a, page, path, Unverified);
    assert |page + {path}| == |page| + 1;
  }

  lemma WithOneMore(p: Pass, a: MountsAnswer, page: set<Path>, path: Path, v: Verdict)
    requires path !in page
    ensures Judge(p, a, path) == v ==> With(p, a, page + {path}, v) == With(p, a, page, v) + {path}
    ensures Judge(p, a, path) != v ==> With(p, a, page + {path}, v) == With(p, a, page, v)
    ensures |With(p, a, page + {path}, v)| == |With(p, a, page, v)| + (if Judge(p, a, path) == v then 1 else 0)
  {
  }

  lemma WithUnion(p: Pass, a: MountsAnswer, x: set<Path>, y: set<Path>, v: Verdict)
    requires x !! y
    ensures With(p, a, x + y, v) == With(p, a, x, v) + With(p, a, y, v)
    ensures |With(p, a, x + y, v)| == |With(p, a, x, v)| + |With(p, a, y, v)|
  {
    assert With(p, a, x, v) !! With(p, a, y, v);
  }

  /** Every row has one verdict. */
  lemma {:induction false} VerdictsPartition(p: Pass, a: MountsAnswer, rows: set<Path>)
    ensures |With(p, a, rows, Keep)| + |With(p, a, rows, Delete)| + |With(p, a, rows, Prune)|
          + |With(p, a, rows, Ignore)| + |With(p, a, rows, Unverified)| == |rows|
  {
    hide Judge, With;
    if rows == {} {
      WithNone(p, a);
    } else {
      var r :| r in rows;
      var rest := rows - {r};
      VerdictsPartition(p, a, rest);
      assert rest + {r} == rows;
      WithOneMore(p, a, rest, r, Keep);
      WithOneMore(p, a, rest, r, Delete);
      WithOneMore(p, a, rest, r, Prune);
      WithOneMore(p, a, rest, r, Ignore);
      WithOneMore(p, a, rest, r, Unverified);
    }
  }

  lemma WithNone(p: Pass, a: MountsAnswer)
    ensures forall v :: With(p, a, {}, v) == {}
  {
    forall v ensures With(p, a, {}, v) == {} {
    }
  }

  lemma NothingJudged(p: Pass, a: MountsAnswer, page: seq<Path>)
    ensures IsPageWork(p, a, PathSet(page[..0]), PageWork([], [], 0, 0))
  {
    assert PathSet(page[..0]) == {} && PathSet([]) == {};
  }

  lemma NextOnPage(page: seq<Path>, i: nat)
    requires i < |page| && forall j, k :: 0 <= j < k < |page| ==> page[j] != page[k]
    ensures PathSet(page[..i + 1]) == PathSet(page[..i]) + {page[i]} && page[i] !in PathSet(page[..i])
  {
    assert page[..i + 1] == page[..i] + [page[i]];
  }

  class Reconciler {
    const store: Store

    constructor (store: Store)
      ensures this.store == store
    {
      this.store := store;
    }

    /** The switch over one row, with underAny as its second guard. */
    method JudgeRow(p: Pass, a: MountsAnswer, unknown: set<Path>, path: Path) returns (v: Verdict)
      requires Cleaned(path) && unknown == UnknownOf(p, a) && [] !in unknown
      ensures v == Judge(p, a, path)
    {
      if !WithinAny(path, p.roots) || p.excluded(path) {
        return if p.unresolved then Ignore else Prune;
      }
      var under := UnderAny(path, unknown);
      if under {
        return Unverified;
      }
      match p.lstat(path)
      case Present(indexable) => return if indexable then Keep else Delete;
      case CannotTell => return Unverified;
      case Missing => return if RememberedOf(a) then Delete else Unverified;
    }

    /** The loop over one page. It stops when the context is cancelled after `budget` rows. */
    method JudgePage(p: Pass, a: MountsAnswer, unknown: set<Path>, page: seq<Path>, budget: nat)
      returns (w: PageWork, cancelled: bool)
      requires StrictlySorted(page) && |page| <= FLUSH_EVERY
      requires forall r :: r in page ==> Cleaned(r)
      requires unknown == UnknownOf(p, a) && [] !in unknown
      ensures cancelled <==> budget < |page|
      ensures !cancelled ==> IsPageWork(p, a, PathSet(page), w)
    {
      hide Judge, IsPageWork, Record;
      SortedIsDistinct(page);
      w := PageWork([], [], 0, 0);
      NothingJudged(p, a, page);
      for i := 0 to |page|
        invariant i <= budget && IsPageWork(p, a, PathSet(page[..i]), w)
      {
        if i == budget {
          return w, true;
        }
        var v := JudgeRow(p, a, unknown, page[i]);
        NextOnPage(page, i);
        RecordStep(p, a, PathSet(page[..i]), w, page[i]);
        w := Record(w, v, page[i]);
      }
      assert page[..|page|] == page;
      return w, false;
    }

    /** flushDeletes: one batch of doomed paths, counted as they go. */
    method FlushDeletes(paths: seq<Path>, lands: bool) returns (removed: int, ok: bool)
      requires |paths| <= FLUSH_EVERY && [] !in paths
      modifies store`documents
      ensures ok == (paths == [] || lands)
      ensures removed == |old(store.documents)| - |store.documents|
      ensures store.documents == if ok then old(store.documents) - PathSet(paths) else old(store.documents)
    {
      if |paths| == 0 {
        assert PathSet(paths) == {} && store.documents - {} == store.documents;
        return 0, true;
      }
      removed, ok := store.DeleteByPaths(paths, if lands then 1 else 0);
      assert Landed(|paths|, 1) == |paths| && paths[..|paths|] == paths;
      assert PathSet(paths[..0]) == {} && old(store.documents) - {} == old(store.documents);
    }

    /** declineAll: with nothing in scope every row is counted and none is touched. */
    method DeclineAll(pagesRead: nat) returns (t: Tally)
      requires [] !in store.documents
      ensures t.reconciled ==> t == Tally(0, 0, 0, |store.documents|, true)
      ensures t.deleted == 0 && t.pruned == 0
    {
      t := Tally(0, 0, 0, 0, true);
      var cursor: Str := [];
      var pages := 0;
      ghost var rows := store.documents.Keys;
      NothingBefore(rows);
      while true
        invariant t == Tally(0, 0, 0, |Upto(rows, cursor)|, true)
        decreases |rows| - |Upto(rows, cursor)|
      {
        if pages == pagesRead {
          return t.(reconciled := false);
        }
        pages := pages + 1;
        var page := store.ListPaths(cursor, FLUSH_EVERY);
        PageAdvances(rows, rows, cursor, page);
        if |page| == 0 {
          return t;
        }
        cursor := page[|page| - 1];
        t := t.(unverified := t.unverified + |page|);
        if |page| < FLUSH_EVERY {
          return t;
        }
      }
    }

    /** learnMounts. */
    method LearnMounts(p: Pass, a: MountsAnswer) returns (known: seq<Path>)
      requires TableReadable(p.table) && a == Answer(store.memory, p.readFault) && !a.Unreadable?
      modifies store`memory
      ensures (store.memory, known) == LearnStep(p, old(store.memory))
    {
      known := KnownOf(a);
      var next := known;
      for i := 0 to |p.table.live|
        invariant forall m :: m in next <==> m in known || (m in p.table.live[..i] && InScopeMount(m, p.roots))
      {
        hide InScopeMount;
        ghost var next0 := next;
        if InScopeMount(p.table.live[i], p.roots) {
          next := next + [p.table.live[i]];
        }
        assert p.table.live[..i + 1] == p.table.live[..i] + [p.table.live[i]];
        assert forall m :: m in next <==> m in next0 || (m == p.table.live[i] && InScopeMount(m, p.roots));
      }
      assert p.table.live[..|p.table.live|] == p.table.live;
      assert (set m | m in next) == (set m | m in known) + (set m | m in p.table.live && InScopeMount(m, p.roots));
      next := Sorted(set m | m in next);
      assert next == Learned(known, LiveOf(p.table), p.roots);
      if RememberedOf(a) && next == known {
        return known;
      }
      var ok := store.SetKnownMounts(next, p.learnFault);
      if ok {
        return next;
      }
      return known;
    }

    /** forgetEmptyMounts; occupied is complete because the enumeration is. */
    method ForgetEmptyMounts(p: Pass, known: seq<Path>, occupied: set<Path>, ghost rows: set<Path>)
      requires TableReadable(p.table)
      requires forall m :: m in known ==> (m in occupied <==> Occupied(m, rows))
      modifies store`memory
      ensures var next := Kept(known, LiveOf(p.table), rows);
              store.memory == if next == known || p.forgetFault then old(store.memory) else Recorded(next)
    {
      var next: seq<Path> := [];
      for i := 0 to |known|
        invariant next + Kept(known[i..], LiveOf(p.table), rows) == Kept(known, LiveOf(p.table), rows)
      {
        assert known[i..][0] == known[i] && known[i..][1..] == known[i + 1..];
        if known[i] in occupied || known[i] in p.table.live {
          next := next + [known[i]];
        }
      }
      assert next == Kept(known, LiveOf(p.table), rows);
      if next == known {
        return;
      }
      var ok := store.SetKnownMounts(next, p.forgetFault);
    }

    /** One page: judge every row on it, then delete what was judged gone. `landing` is how many
        more delete transactions land. */
    method ReconcilePage(p: Pass, a: MountsAnswer, unknown: set<Path>, page: seq<Path>, budget: nat, landing: nat)
      returns (d: Tally, cancelled: bool, flushes: nat)
      requires StrictlySorted(page) && |page| <= FLUSH_EVERY && PathSet(page) <= store.documents.Keys
      requires forall r :: r in page ==> Cleaned(r)
      requires unknown == UnknownOf(p, a) && [] !in unknown
      modifies store`documents
      ensures Conserves(p, a, old(store.documents), store.documents, d)
      ensures cancelled <==> budget < |page|
      ensures d.reconciled ==> !cancelled && flushes <= landing
      ensures d.reconciled ==> store.documents == Without(p, a, old(store.documents), PathSet(page))
      ensures d.reconciled ==> d == Counts(p, a, PathSet(page))
    {
      hide Judge, With, IsPageWork, Conserves, PathSet, Without, Counts, Cleaned;
      ghost var before := store.documents;
      d, flushes := Tally(0, 0, 0, 0, false), 0;
      NothingGone(p, a, before, d);
      var w;
      w, cancelled := JudgePage(p, a, unknown, page, budget);
      if cancelled {
        return;
      }
      PageWorkSizes(p, a, page, w);
      var gone, ok := FlushDeletes(w.vanished, flushes < landing);
      flushes := flushes + (if w.vanished == [] then 0 else 1);
      ghost var now := store.documents;
      ghost var d0 := d;
      d := d.(deleted := gone);
      ConserveFlush(p, a, before, before, now, d0, d, w.vanished, ok);
      if !ok {
        return;
      }
      ghost var d1 := d;
      var pruned, okToo := FlushDeletes(w.outOfScope, flushes < landing);
      flushes := flushes + (if w.outOfScope == [] then 0 else 1);
      d := d.(pruned := pruned);
      ConserveFlush(p, a, before, now, store.documents, d1, d, w.outOfScope, okToo);
      if !okToo {
        return;
      }
      ghost var d2 := d;
      d := Tally(gone, pruned, w.ignored, w.unverified, true);
      Recount(p, a, before, store.documents, d2, d);
      PageDone(p, a, before, page, w, gone, pruned);
    }

    /** The paged enumeration. */
    method Enumerate(p: Pass, a: MountsAnswer, unknown: set<Path>, known: seq<Path>)
      returns (t: Tally, occupied: set<Path>, cancelled: bool)
      requires forall r :: r in store.documents ==> Cleaned(r)
      requires unknown == UnknownOf(p, a) && [] !in unknown
      modifies store`documents
      ensures Conserves(p, a, old(store.documents), store.documents, t)
      ensures t.reconciled ==> JudgedAll(p, a, old(store.documents), store.documents, t) && !cancelled
      ensures t.reconciled ==> OccupiedSoFar(known, old(store.documents).Keys, occupied)
    {
      hide Judge, With, Conserves, JudgedAll, PathSet, Progress, OccupiedSoFar, Upto, IsPage, Cleaned, Without, Counts;
      ghost var before := store.documents;
      t, occupied, cancelled := Tally(0, 0, 0, 0, true), {}, false;
      var cursor: Str := [];
      var pages, judged, flushes := 0, 0, 0;
      NothingYet(p, a, before, known);
      while true
        invariant t.reconciled && !cancelled && judged <= p.rowsJudged && flushes <= p.deletesLanding
        invariant Progress(p, a, before, cursor, store.documents, t)
        invariant Conserves(p, a, before, store.documents, t)
        invariant OccupiedSoFar(known, Upto(before.Keys, cursor), occupied)
        decreases |before.Keys| - |Upto(before.Keys, cursor)|
      {
        if pages == p.pagesRead {
          t := t.(reconciled := false);
          Unreconciled(p, a, before, store.documents, t);
          return;
        }
        pages := pages + 1;
        var page := store.ListPaths(cursor, FLUSH_EVERY);
        ghost var at, now, t0, o0 := cursor, store.documents, t, occupied;
        ProgressRows(p, a, before, at, now, t);
        PageAdvances(before.Keys, now.Keys, at, page);
        if |page| == 0 {
          ProgressDone(p, a, before, at, now, t);
          return;
        }
        cursor := page[|page| - 1];
        CleanedPage(before, now, page);
        var d, stop, spent := ReconcilePage(p, a, unknown, page, p.rowsJudged - judged, p.deletesLanding - flushes);
        t := Tally(t.deleted + d.deleted, t.pruned + d.pruned, t.ignored + d.ignored,
                   t.unverified + d.unverified, d.reconciled);
        ConserveMore(p, a, before, now, store.documents, t0, d, t);
        occupied := occupied + OccupiedBy(known, page);
        OccupiedGrows(known, Upto(before.Keys, at), page, o0, occupied);
        if !d.reconciled {
          cancelled := stop;
          return;
        }
        judged, flushes := judged + |page|, flushes + spent;
        ProgressMore(p, a, before, at, now, t0, page, d, t);
        if |page| < FLUSH_EVERY {
          ProgressDone(p, a, before, cursor, store.documents, t);
          return;
        }
      }
    }

    /** reconcileDeleted. */
    method ReconcileDeleted(p: Pass) returns (t: Tally, cancelled: bool)
      requires forall r :: r in store.documents ==> Cleaned(r)
      requires WellFormed(p, store.memory)
      modifies store`documents, store`memory
      ensures Reconciled(p, old(store.documents), old(store.memory), store.documents, store.memory, t)
    {
      hide Judge, With, Conserves, JudgedAll, Cleaned;
      CleanedRows(store.documents.Keys);
      if p.roots == [] {
        t := DeclineAll(p.pagesRead);
        NothingGone(p, Answer(store.memory, p.readFault), store.documents, t);
        return t, false;
      }
      var a := store.KnownMounts(p.readFault);
      var unknown := UnknownOf(p, a);
      NoEmptyPrefix(p, store.memory);
      var known := KnownOf(a);
      if TableReadable(p.table) && !a.Unreadable? {
        known := LearnMounts(p, a);
      }
      var occupied;
      t, occupied, cancelled := Enumerate(p, a, unknown, known);
      if !t.reconciled || !TableReadable(p.table) || a.Unreadable? {
        return;
      }
      ForgetEmptyMounts(p, known, occupied, old(store.documents).Keys);
    }
  }

  // ---------------------------------------------------------------------------------------
  // Paging while deleting

  /** Absolute, cleaned prefixes, as resolved roots, walked directories and mount points are. */
  ghost predicate WellFormed(p: Pass, memory: MountMemory) {
    && (forall r :: r in p.roots ==> r != [])
    && (forall r :: r in p.unread ==> r != [])
    && (memory.Recorded? ==> forall m :: m in memory.mounts ==> m != [])
  }

  lemma CleanedRows(rows: set<Path>)
    requires forall r :: r in rows ==> Cleaned(r)
    ensures [] !in rows
  {
  }

  lemma NoEmptyPrefix(p: Pass, memory: MountMemory)
    requires WellFormed(p, memory)
    ensures [] !in UnknownOf(p, Answer(memory, p.readFault))
  {
  }

  /** The rows the cursor has passed. */
  ghost function Upto(rows: set<Path>, cursor: Str): set<Path> {
    set r | r in rows && !Less(cursor, r)
  }

  lemma NothingBefore(rows: set<Path>)
    requires [] !in rows
    ensures Upto(rows, []) == {}
  {
  }

  /** A page of the surviving rows moves the cursor over exactly the rows on it. */
  lemma PageAdvances(rows: set<Path>, now: set<Path>, at: Str, page: seq<Path>)
    requires IsPage(now, at, FLUSH_EVERY, page)
    requires forall r :: Less(at, r) ==> (r in now <==> r in rows)
    ensures |PathSet(page)| == |page| && PathSet(page) <= now && PathSet(page) !! Upto(rows, at)
    ensures page == [] ==> Upto(rows, at) == rows
    ensures page != [] ==>
              var last := page[|page| - 1];
              && Upto(rows, last) == Upto(rows, at) + PathSet(page)
              && |Upto(rows, at)| < |Upto(rows, last)| <= |rows|
              && (|page| < FLUSH_EVERY ==> Upto(rows, last) == rows)
    ensures StrictlySorted(page)
  {
    SortedIsDistinct(page);
    DistinctPaths(page);
    if page != [] {
      var last := page[|page| - 1];
      assert last in page;
      forall r ensures r in Upto(rows, last) <==> r in Upto(rows, at) + PathSet(page) {
        PageSplits(rows, now, at, page, r);
      }
      assert |Upto(rows, at) + PathSet(page)| == |Upto(rows, at)| + |page|;
      SubsetSize(Upto(rows, last), rows);
    }
  }

  lemma PageSplits(rows: set<Path>, now: set<Path>, at: Str, page: seq<Path>, r: Path)
    requires IsPage(now, at, FLUSH_EVERY, page) && page != []
    requires forall r :: Less(at, r) ==> (r in now <==> r in rows)
    ensures var last := page[|page| - 1];
            && (r in Upto(rows, last) <==> r in Upto(rows, at) + PathSet(page))
            && (|page| < FLUSH_EVERY ==> (r in Upto(rows, last) <==> r in rows))
  {
    var last := page[|page| - 1];
    assert last in page;
    if r in page {
      var k :| 0 <= k < |page| && page[k] == r;
      if k < |page| - 1 {
        LessAsymmetric(r, last);
      } else {
        LessIrreflexive(last);
      }
    } else if r in rows && Less(at, r) {
      assert Less(last, r) && |page| == FLUSH_EVERY;
    } else if r in rows && Less(last, r) {
      LessTransitive(at, last, r);
    }
  }

  lemma {:induction false} DistinctPaths(page: seq<Path>)
    requires forall j, k :: 0 <= j < k < |page| ==> page[j] != page[k]
    ensures |PathSet(page)| == |page|
  {
    if page != [] {
      var n := |page| - 1;
      DistinctPaths(page[..n]);
      assert page == page[..n] + [page[n]];
      PathSetAppend(page[..n], page[n]);
    }
  }

  /** The rows left once those in `done` have been judged. */
  ghost function Without(p: Pass, a: MountsAnswer, before: map<Path, Row>, done: set<Path>): map<Path, Row> {
    before - With(p, a, done, Delete) - With(p, a, done, Prune)
  }

  ghost function Counts(p: Pass, a: MountsAnswer, done: set<Path>): Tally {
    Tally(|With(p, a, done, Delete)|, |With(p, a, done, Prune)|,
          |With(p, a, done, Ignore)|, |With(p, a, done, Unverified)|, true)
  }

  /** Every row the cursor has passed has been judged, and dropped if it was judged gone. */
  ghost predicate Progress(p: Pass, a: MountsAnswer, before: map<Path, Row>, cursor: Str, now: map<Path, Row>, t: Tally) {
    var done := Upto(before.Keys, cursor);
    now == Without(p, a, before, done) && t == Counts(p, a, done)
  }

  function OccupiedBy(known: seq<Path>, page: seq<Path>): set<Path> {
    set m | m in known && exists r :: r in page && Within(r, m)
  }

  ghost predicate OccupiedSoFar(known: seq<Path>, done: set<Path>, occupied: set<Path>) {
    forall m :: m in known ==> (m in occupied <==> Occupied(m, done))
  }

  lemma NothingYet(p: Pass, a: MountsAnswer, before: map<Path, Row>, known: seq<Path>)
    requires forall r :: r in before ==> Cleaned(r)
    ensures Progress(p, a, before, [], before, Tally(0, 0, 0, 0, true))
    ensures Conserves(p, a, before, before, Tally(0, 0, 0, 0, true))
    ensures OccupiedSoFar(known, Upto(before.Keys, []), {})
  {
    hide Judge;
    NothingBefore(before.Keys);
    WithNone(p, a);
    assert before - {} - {} == before;
  }

  lemma ProgressRows(p: Pass, a: MountsAnswer, before: map<Path, Row>, cursor: Str, now: map<Path, Row>, t: Tally)
    requires Progress(p, a, before, cursor, now, t)
    ensures forall r :: Less(cursor, r) ==> (r in now.Keys <==> r in before.Keys)
    ensures forall r :: r in now ==> r in before && now[r] == before[r]
  {
    hide Judge;
  }

  lemma ProgressDone(p: Pass, a: MountsAnswer, before: map<Path, Row>, cursor: Str, now: map<Path, Row>, t: Tally)
    requires Progress(p, a, before, cursor, now, t) && Upto(before.Keys, cursor) == before.Keys
    ensures JudgedAll(p, a, before, now, t)
  {
    hide Judge, With;
    VerdictsPartition(p, a, before.Keys);
  }

  lemma Unreconciled(p: Pass, a: MountsAnswer, before: map<Path, Row>, now: map<Path, Row>, t: Tally)
    requires Conserves(p, a, before, now, t.(reconciled := true))
    ensures Conserves(p, a, before, now, t.(reconciled := false))
  {
    hide Judge;
  }

  lemma NothingGone(p: Pass, a: MountsAnswer, before: map<Path, Row>, t: Tally)
    requires t.deleted == 0 && t.pruned == 0
    ensures Conserves(p, a, before, before, t)
  {
    hide Judge;
  }

  /** A completed pass over rows none of which is judged gone leaves them alone. */
  lemma NothingDoomed(p: Pass, a: MountsAnswer, before: map<Path, Row>, after: map<Path, Row>, t: Tally)
    requires JudgedAll(p, a, before, after, t)
    requires forall r :: r in before ==> Judge(p, a, r) != Delete && Judge(p, a, r) != Prune
    ensures after == before && t.deleted == 0 && t.pruned == 0
  {
    hide Judge;
    assert With(p, a, before.Keys, Delete) == {} && With(p, a, before.Keys, Prune) == {};
    assert before - {} - {} == before;
  }

  lemma PageWorkSizes(p: Pass, a: MountsAnswer, page: seq<Path>, w: PageWork)
    requires IsPageWork(p, a, PathSet(page), w) && |page| <= FLUSH_EVERY && StrictlySorted(page)
    requires forall r :: r in page ==> Cleaned(r)
    ensures |w.vanished| <= FLUSH_EVERY && |w.outOfScope| <= FLUSH_EVERY
    ensures [] !in w.vanished && [] !in w.outOfScope
    ensures forall r :: r in PathSet(w.vanished) ==> Judge(p, a, r) == Delete
    ensures forall r :: r in PathSet(w.outOfScope) ==> Judge(p, a, r) == Prune
  {
    hide Judge;
    SortedIsDistinct(page);
    DistinctPaths(page);
    assert forall r :: r in w.vanished ==> r in PathSet(w.vanished);
    assert forall r :: r in w.outOfScope ==> r in PathSet(w.outOfScope);
  }

  /** One flush: what goes is doomed, and is counted. */
  lemma ConserveDrop(p: Pass, a: MountsAnswer, before: map<Path, Row>, now: map<Path, Row>, after: map<Path, Row>,
                     t: Tally, u: Tally, gone: set<Path>)
    requires Conserves(p, a, before, now, t)
    requires after == now - gone
    requires u.deleted + u.pruned == t.deleted + t.pruned + |now| - |after|
    requires forall r :: r in gone ==> Judge(p, a, r) == Delete || Judge(p, a, r) == Prune
    ensures Conserves(p, a, before, after, u)
  {
    hide Judge;
    forall r | r in before && r !in after ensures Judge(p, a, r) == Delete || Judge(p, a, r) == Prune {
      if r in now {
        assert r in gone;
      }
    }
  }

  /** The running totals conserve when the pass so far and the page do. */
  lemma ConserveMore(p: Pass, a: MountsAnswer, before: map<Path, Row>, now: map<Path, Row>, after: map<Path, Row>,
                     t: Tally, d: Tally, u: Tally)
    requires Conserves(p, a, before, now, t) && Conserves(p, a, now, after, d)
    requires u.deleted == t.deleted + d.deleted && u.pruned == t.pruned + d.pruned
    ensures Conserves(p, a, before, after, u)
  {
    hide Judge;
  }

  lemma ConserveFlush(p: Pass, a: MountsAnswer, before: map<Path, Row>, now: map<Path, Row>, after: map<Path, Row>,
                      t: Tally, u: Tally, paths: seq<Path>, ok: bool)
    requires Conserves(p, a, before, now, t)
    requires after == if ok then now - PathSet(paths) else now
    requires u.deleted + u.pruned == t.deleted + t.pruned + |now| - |after|
    requires forall r :: r in PathSet(paths) ==> Judge(p, a, r) == Delete || Judge(p, a, r) == Prune
    ensures Conserves(p, a, before, after, u)
  {
    hide Judge, Conserves, PathSet;
    if ok {
      ConserveDrop(p, a, before, now, after, t, u, PathSet(paths));
    } else {
      Recount(p, a, before, now, t, u);
    }
  }

  lemma Recount(p: Pass, a: MountsAnswer, before: map<Path, Row>, now: map<Path, Row>, t: Tally, u: Tally)
    requires Conserves(p, a, before, now, t) && u.deleted + u.pruned == t.deleted + t.pruned
    ensures Conserves(p, a, before, now, u)
  {
    hide Judge;
  }

  lemma CleanedPage(before: map<Path, Row>, now: map<Path, Row>, page: seq<Path>)
    requires forall r :: r in before ==> Cleaned(r)
    requires forall r :: r in now ==> r in before
    requires PathSet(page) <= now.Keys
    ensures forall r :: r in page ==> Cleaned(r)
  {
    hide Cleaned;
    forall r | r in page ensures Cleaned(r) {
      assert r in PathSet(page);
    }
  }

  lemma OccupiedGrows(known: seq<Path>, done: set<Path>, page: seq<Path>, o: set<Path>, occupied: set<Path>)
    requires OccupiedSoFar(known, done, o) && occupied == o + OccupiedBy(known, page)
    ensures OccupiedSoFar(known, done + PathSet(page), occupied)
  {
    forall m | m in known ensures m in occupied <==> Occupied(m, done + PathSet(page)) {
      if Occupied(m, done + PathSet(page)) {
        var r :| r in done + PathSet(page) && Within(r, m);
      }
      if m in occupied {
        if m in o {
          var r :| r in done && Within(r, m);
          assert r in done + PathSet(page);
        } else {
          var r :| r in page && Within(r, m);
          assert r in PathSet(page);
        }
      }
    }
  }

  lemma MapDrops(m: map<Path, Row>, a: set<Path>, b: set<Path>, c: set<Path>, d: set<Path>)
    ensures m - a - b - c - d == m - (a + c) - (b + d)
  {
  }

  /** The two flushes of a page leave what its verdicts leave, and count it. */
  lemma PageDone(p: Pass, a: MountsAnswer, before: map<Path, Row>, page: seq<Path>, w: PageWork, gone: int, pruned: int)
    requires IsPageWork(p, a, PathSet(page), w) && PathSet(page) <= before.Keys
    requires gone == |before| - |before - PathSet(w.vanished)|
    requires pruned == |before - PathSet(w.vanished)| - |before - PathSet(w.vanished) - PathSet(w.outOfScope)|
    ensures before - PathSet(w.vanished) - PathSet(w.outOfScope) == Without(p, a, before, PathSet(page))
    ensures Tally(gone, pruned, w.ignored, w.unverified, true) == Counts(p, a, PathSet(page))
  {
    hide Judge, PathSet;
    var v, o := With(p, a, PathSet(page), Delete), With(p, a, PathSet(page), Prune);
    assert v <= before.Keys && o <= (before - v).Keys;
    RemovedCount(before, v);
    RemovedCount(before - v, o);
  }

  lemma ProgressMore(p: Pass, a: MountsAnswer, before: map<Path, Row>, at: Str, now: map<Path, Row>, t: Tally,
                     page: seq<Path>, d: Tally, u: Tally)
    requires Progress(p, a, before, at, now, t) && page != []
    requires PathSet(page) !! Upto(before.Keys, at)
    requires Upto(before.Keys, page[|page| - 1]) == Upto(before.Keys, at) + PathSet(page)
    requires d == Counts(p, a, PathSet(page))
    requires u == Tally(t.deleted + d.deleted, t.pruned + d.pruned, t.ignored + d.ignored,
                        t.unverified + d.unverified, true)
    ensures Progress(p, a, before, page[|page| - 1], Without(p, a, now, PathSet(page)), u)
  {
    hide Judge, With, Upto, PathSet;
    var done, mine := Upto(before.Keys, at), PathSet(page);
    WithUnion(p, a, done, mine, Delete);
    WithUnion(p, a, done, mine, Prune);
    WithUnion(p, a, done, mine, Ignore);
    WithUnion(p, a, done, mine, Unverified);
    MapDrops(before, With(p, a, done, Delete), With(p, a, done, Prune), With(p, a, mine, Delete), With(p, a, mine, Prune));
  }
}
