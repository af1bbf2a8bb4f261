/** An incremental scan against a rebuild: over a filesystem with nothing unreadable in it, the rows a
    scan leaves are those a scan of an empty catalog leaves, exactly when no row is stuck. */
module Rebuild {
  import opened Bytes
  import opened Text
  import opened Paths
  import opened Catalog
  import opened Stores
  import opened Reconcile
  import opened Mounts
  import opened Discovery
  import opened Scanners

  /** A filesystem with no symlink, placeholder or unreadable entry in it. Equal digests are equal
      bytes. */
  datatype Node = Folder | File(size: int, mtime: int, digest: Hash) | Other

  type Files = map<Path, Node>

  ghost predicate Tree(fs: Files) {
    forall p :: p in fs ==> Cleaned(p) && (p == ROOT || (Dir(p) in fs && fs[Dir(p)].Folder?))
  }

  function InfoOf(n: Node): Info
    requires n.File?
  {
    Info(n.size, n.mtime, false)
  }

  function EntryOf(n: Node): Entry {
    match n
    case Folder => Directory
    case Other => Special
    case File(_, _, digest) => Regular(Stated(InfoOf(n), Digest(digest)))
  }

  /** WalkDir over this filesystem: every entry at or beneath the root, once, parents first. */
  ghost predicate Lists(fs: Files, root: Path, listing: seq<Visit>) {
    && (forall v :: v in listing ==> v.path in fs && v.entry == EntryOf(fs[v.path]))
    && (forall p :: p in fs && Within(p, root) ==> Visit(p, EntryOf(fs[p])) in listing)
  }

  /** Beneath something that is not a directory: lstat answers ENOTDIR, which is not ENOENT. */
  ghost predicate Blocked(fs: Files, p: Path) {
    exists a :: a in fs && StrictlyWithin(p, a) && !fs[a].Folder?
  }

  ghost function StatOf(o: Options, fs: Files, p: Path): Stat {
    if p in fs then Present(fs[p].File? && o.text(p))
    else if Blocked(fs, p) then CannotTell
    else Missing
  }

  /** Denying a directory denies everything beneath it. */
  ghost predicate DenyClosed(o: Options) {
    forall p, q :: o.excluded(q) && Within(p, q) ==> o.excluded(p)
  }

  /** A scan of this filesystem that nothing interrupts: every root resolves and is there, and the
      memory and the mount table can be read. */
  ghost predicate Steady(o: Options, w: World, fs: Files, roots: seq<Path>) {
    && GoodWorld(o, w) && DenyClosed(o) && AllVerified(o) && IsRoots(o, roots)
    && Tree(fs) && (forall r :: r in roots ==> r in fs && Lists(fs, r, w.listings(r)))
    && (forall p :: w.pass.lstat(p) == StatOf(o, fs, p))
    && TableReadable(w.pass.table) && !w.pass.readFault
  }

  /** What the catalog already says about these files is not misleading: an unchanged size and mtime
      mean unchanged bytes, and no failed read is remembered for an unchanged file. */
  ghost predicate Faithful(fs: Files, documents: map<Path, Row>) {
    forall p :: p in documents && p in fs && fs[p].File? && StatMatches(Some(documents[p]), InfoOf(fs[p])) ==>
      && (documents[p].source.Read? ==> documents[p].source.hash == fs[p].digest)
      && documents[p].source != Unread(IoError)
  }

  predicate InScopeFile(o: Options, roots: seq<Path>, p: Path) {
    WithinAny(p, roots) && !o.excluded(p)
  }

  /** The rows a rebuild leaves: one for each admissible file in scope. */
  function Wanted(o: Options, roots: seq<Path>, fs: Files): map<Path, Row> {
    map p | p in fs && fs[p].File? && o.text(p) && InScopeFile(o, roots, p) :: RowOf(Read(fs[p].digest), InfoOf(fs[p]))
  }

  /** The rows after the walk, before the deletion pass. */
  function Walked(o: Options, w: World, roots: seq<Path>, t: Tables): map<Path, Row> {
    UpsertAll(t, Docs(Writes(o, t.documents, AllShown(o, roots, w.listings))), w.now).documents
  }

  /** A row the pass cannot delete though no file stands behind it: beneath a remembered volume that is
      not mounted, or gone with no recorded volume evidence, or beneath a path that is no longer a
      directory. */
  ghost predicate Stuck(o: Options, w: World, roots: seq<Path>, fs: Files, memory: MountMemory, r: Path) {
    && InScopeFile(o, roots, r) && r !in Wanted(o, roots, fs)
    && (|| UnderAnyOf(r, AbsentMounts(w.pass, Answer(memory, false)))
        || (r !in fs && (memory.Absent? || memory.Garbled? || Blocked(fs, r))))
  }

  // ---------------------------------------------------------------------------------------
  // What the walk is shown

  lemma {:induction false} ShownMembers(o: Options, listing: seq<Visit>, n: nat)
    requires n <= |listing|
    ensures forall v :: v in Shown(o, listing, n) <==> v in listing[..n] && !Skipped(o, listing, v)
    decreases n
  {
    hide Skipped;
    if n > 0 {
      ShownMembers(o, listing, n - 1);
      assert listing[..n] == listing[..n - 1] + [listing[n - 1]];
    }
  }

  lemma {:induction false} AllShownMembers(o: Options, w: World, roots: seq<Path>, v: Visit)
    ensures v in AllShown(o, roots, w.listings) <==>
              exists r :: r in roots && v in w.listings(r) && !Skipped(o, w.listings(r), v)
    decreases |roots|
  {
    if roots != [] {
      var n := |roots| - 1;
      var rest, listing := roots[..n], w.listings(roots[n]);
      AllShownMembers(o, w, rest, v);
      ShownMembers(o, listing, |listing|);
      assert listing[..|listing|] == listing && roots == rest + [roots[n]];
      hide Skipped, Shown;
      assert v in AllShown(o, roots, w.listings) <==> v in AllShown(o, rest, w.listings) || v in ShownOf(o, listing);
      if r :| r in rest && v in w.listings(r) && !Skipped(o, w.listings(r), v) {
        assert r in roots;
      }
      assert roots[n] in roots;
    }
  }

  lemma {:induction false} ShownDistinct(o: Options, listing: seq<Visit>, n: nat)
    requires n <= |listing| && DistinctVisits(listing)
    ensures DistinctVisits(Shown(o, listing, n))
    decreases n
  {
    hide Skipped;
    if n > 0 {
      ShownDistinct(o, listing, n - 1);
      ShownAreListed(o, listing, n - 1);
      forall v | v in Shown(o, listing, n - 1) ensures v.path != listing[n - 1].path {
        var j :| 0 <= j < n - 1 && listing[..n - 1][j] == v;
        assert listing[j] == v;
      }
    }
  }

  lemma {:induction false} AllShownDistinct(o: Options, w: World, roots: seq<Path>, n: nat)
    requires GoodWorld(o, w) && IsRoots(o, roots) && n <= |roots|
    ensures DistinctVisits(AllShown(o, roots[..n], w.listings))
    decreases n
  {
    if n > 0 {
      AllShownDistinct(o, w, roots, n - 1);
      RootsDisjoint(o, w, roots, n - 1);
      var listing := w.listings(roots[n - 1]);
      ShownDistinct(o, listing, |listing|);
      ShownInListing(o, listing);
      NextRoot(o, w, roots, n - 1);
      hide AllShown, Shown, GoodWorld, IsRoots, DistinctVisits;
    }
  }

  // ---------------------------------------------------------------------------------------
  // What the walk writes

  /** The row at a path after its one visit. */
  function Visited(o: Options, row: Option<Row>, v: Visit): Option<Row> {
    var a := ActionOf(o, row, v);
    if a.write.Some? then a.write else row
  }

  /** The row the last write for p leaves, over what was there. */
  function RowAfter(o: Options, row: Option<Row>, visits: seq<Visit>, p: Path): Option<Row> {
    if visits == [] then row
    else
      var last := visits[|visits| - 1];
      var a := ActionOf(o, row, last);
      if p == last.path && a.write.Some? then a.write else RowAfter(o, row, visits[..|visits| - 1], p)
  }

  lemma {:induction false} WalkEffect(o: Options, t: Tables, visits: seq<Visit>, now: int, p: Path)
    ensures Lookup(UpsertAll(t, Docs(Writes(o, t.documents, visits)), now).documents, p)
         == RowAfter(o, Lookup(t.documents, p), visits, p)
    decreases |visits|
  {
    hide ActionOf, UpsertAll, Writes, Docs, Lookup;
    if visits == [] {
      NoVisits(o, t, now);
    } else {
      var n := |visits| - 1;
      var rest, last := visits[..n], visits[n];
      assert visits == rest + [last];
      WalkEffect(o, t, rest, now, p);
      LastWrite(o, t, rest, last, now, p);
    }
  }

  lemma {:induction false} RowAfterVisit(o: Options, row: Option<Row>, visits: seq<Visit>, v: Visit)
    requires DistinctVisits(visits) && v in visits
    ensures RowAfter(o, row, visits, v.path) == Visited(o, row, v)
    decreases |visits|
  {
    hide ActionOf, DistinctVisits;
    var n := |visits| - 1;
    assert visits == visits[..n] + [visits[n]];
    DistinctFront(visits);
    if v == visits[n] {
      RowAfterNone(o, row, visits[..n], v.path);
    } else {
      RowAfterVisit(o, row, visits[..n], v);
    }
  }

  lemma DistinctFront(visits: seq<Visit>)
    requires visits != [] && DistinctVisits(visits)
    ensures DistinctVisits(visits[..|visits| - 1])
    ensures forall u :: u in visits[..|visits| - 1] ==> u.path != visits[|visits| - 1].path
  {
  }

  lemma {:induction false} RowAfterNone(o: Options, row: Option<Row>, visits: seq<Visit>, p: Path)
    requires forall v :: v in visits ==> v.path != p
    ensures RowAfter(o, row, visits, p) == row
    decreases |visits|
  {
    hide ActionOf;
    if visits != [] {
      var n := |visits| - 1;
      assert visits == visits[..n] + [visits[n]];
      assert visits[n] in visits;
      RowAfterNone(o, row, visits[..n], p);
    }
  }

  lemma NoVisits(o: Options, t: Tables, now: int)
    ensures UpsertAll(t, Docs(Writes(o, t.documents, [])), now) == t
  {
  }

  /** One more visit changes at most the row at its own path. */
  lemma LastWrite(o: Options, t: Tables, rest: seq<Visit>, last: Visit, now: int, p: Path)
    ensures var mid := UpsertAll(t, Docs(Writes(o, t.documents, rest)), now).documents;
            var after := UpsertAll(t, Docs(Writes(o, t.documents, rest + [last])), now).documents;
            var a := ActionOf(o, Lookup(t.documents, last.path), last);
            Lookup(after, p) == if p == last.path && a.write.Some? then a.write else Lookup(mid, p)
  {
    hide ActionOf, Writes, Docs, UpsertAll;
    var before, mine := Writes(o, t.documents, rest), WriteOf(o, t.documents, last);
    WritesNext(o, t.documents, rest, last);
    DocsAppend(before, mine);
    UpsertAllAppend(t, Docs(before), Docs(mine), now);
    UpsertAtMostOne(UpsertAll(t, Docs(before), now), mine, now);
  }

  lemma UpsertAtMostOne(t: Tables, mine: seq<Write>, now: int)
    requires |mine| <= 1
    ensures UpsertAll(t, Docs(mine), now) == if mine == [] then t else UpsertOne(t, mine[0].doc, now)
  {
    if mine == [] {
      assert Docs(mine) == [];
    } else {
      assert Docs(mine) == [mine[0].doc] && Docs(mine)[..0] == [];
    }
  }

  /** A wanted file ends with its wanted row, whether the walk wrote it or found it current. */
  lemma VisitedIsWanted(o: Options, roots: seq<Path>, fs: Files, documents: map<Path, Row>, p: Path)
    requires p in Wanted(o, roots, fs) && Faithful(fs, documents)
    ensures Visited(o, Lookup(documents, p), Visit(p, EntryOf(fs[p]))) == Some(Wanted(o, roots, fs)[p])
  {
  }

  lemma WantedIsShown(o: Options, w: World, fs: Files, roots: seq<Path>, p: Path)
    requires Steady(o, w, fs, roots) && p in Wanted(o, roots, fs)
    ensures Visit(p, EntryOf(fs[p])) in AllShown(o, roots, w.listings)
  {
    var v := Visit(p, EntryOf(fs[p]));
    var r :| r in roots && Within(p, r);
    hide GoodWorld, IsRoots, Tree, Within;
    AllShownMembers(o, w, roots, v);
  }

  lemma ShownIsInFiles(o: Options, w: World, fs: Files, roots: seq<Path>, v: Visit)
    requires Steady(o, w, fs, roots) && v in AllShown(o, roots, w.listings)
    ensures v.path in fs && v.entry == EntryOf(fs[v.path]) && WithinAny(v.path, roots)
  {
    AllShownMembers(o, w, roots, v);
    AllShownWithin(o, w, roots);
    hide GoodWorld, IsRoots, Tree, WithinAny, Skipped, AllShown;
    var r :| r in roots && v in w.listings(r) && !Skipped(o, w.listings(r), v);
  }

  /** The walk adds the wanted rows and touches no other. */
  lemma WalkAddsWanted(o: Options, w: World, fs: Files, roots: seq<Path>, t: Tables)
    requires Steady(o, w, fs, roots) && Faithful(fs, t.documents)
    ensures Walked(o, w, roots, t) == t.documents + Wanted(o, roots, fs)
  {
    var visits := AllShown(o, roots, w.listings);
    AllShownDistinct(o, w, roots, |roots|) by { hide AllShown, GoodWorld, IsRoots; }
    assert roots[..|roots|] == roots;
    var after := Walked(o, w, roots, t);
    forall p ensures Lookup(after, p) == Lookup(t.documents + Wanted(o, roots, fs), p) {
      hide AllShown, Steady, Wanted, Faithful, Visited, UpsertAll, Writes, Docs, DistinctVisits, RowAfter;
      WalkEffect(o, t, visits, w.now, p);
      if p in Wanted(o, roots, fs) {
        WantedIsShown(o, w, fs, roots, p);
        VisitedIsWanted(o, roots, fs, t.documents, p);
        RowAfterVisit(o, Lookup(t.documents, p), visits, Visit(p, EntryOf(fs[p])));
      } else if v :| v in visits && v.path == p {
        ShownIsInFiles(o, w, fs, roots, v);
        RowAfterVisit(o, Lookup(t.documents, p), visits, v);
      } else {
        RowAfterNone(o, Lookup(t.documents, p), visits, p);
      }
    }
    SameLookups(after, t.documents + Wanted(o, roots, fs));
  }

  lemma SameLookups(a: map<Path, Row>, b: map<Path, Row>)
    requires forall p :: Lookup(a, p) == Lookup(b, p)
    ensures a == b
  {
    forall p ensures p in a <==> p in b {
      assert Lookup(a, p) == Lookup(b, p);
    }
    forall p | p in a ensures a[p] == b[p] {
      assert Lookup(a, p) == Lookup(b, p);
    }
  }

  // ---------------------------------------------------------------------------------------
  // What the pass leaves

  lemma NothingUnvouched(o: Options, w: World, fs: Files, roots: seq<Path>)
    requires Steady(o, w, fs, roots)
    ensures UnvouchedOf(o, AllShown(o, roots, w.listings)) == {}
  {
    hide AllShown, GoodWorld, IsRoots;
    forall v | v in AllShown(o, roots, w.listings) ensures !Unvouched(o, v) {
      ShownIsInFiles(o, w, fs, roots, v);
    }
  }

  lemma SteadyPass(o: Options, w: World, fs: Files, roots: seq<Path>, memory: MountMemory)
    requires Steady(o, w, fs, roots)
    ensures var p := PassAfter(o, w, roots);
            && p.roots == roots && !p.unresolved && p.excluded == o.excluded
            && UnknownOf(p, Answer(memory, false)) == AbsentMounts(w.pass, Answer(memory, false))
            && forall r :: p.lstat(r) == StatOf(o, fs, r)
  {
    NothingUnvouched(o, w, fs, roots);
    hide AllShown, GoodWorld, IsRoots, AllVerified, Tree, Lists, Blocked, UnvouchedOf;
    var a := Answer(memory, false);
    assert UnknownOf(PassAfter(o, w, roots), a) == AbsentMounts(w.pass, a);
  }

  /** The verdict on any row: in a steady world a row survives when it is wanted or stuck. */
  lemma SurvivesIff(o: Options, w: World, fs: Files, roots: seq<Path>, memory: MountMemory, r: Path)
    requires Steady(o, w, fs, roots)
    ensures var v := Judge(PassAfter(o, w, roots), Answer(memory, false), r);
            (v != Delete && v != Prune) <==> r in Wanted(o, roots, fs) || Stuck(o, w, roots, fs, memory, r)
  {
    hide PassAfter, Steady, UnderAnyOf, AbsentMounts, UnknownOf, WithinAny, Blocked;
    SteadyPass(o, w, fs, roots, memory);
  }

  /** The rows a completed scan leaves: the wanted rows and the stuck ones. */
  lemma ScanLeaves(o: Options, w: World, fs: Files, roots: seq<Path>, t: Tables, memory: MountMemory,
                   after: map<Path, Row>, memory': MountMemory, y: Tally)
    requires Steady(o, w, fs, roots) && Faithful(fs, t.documents) && roots != [] && y.reconciled
    requires Reconciled(PassAfter(o, w, roots), Walked(o, w, roots, t), memory, after, memory', y)
    ensures forall r :: r in after <==>
              r in Wanted(o, roots, fs) || (r in t.documents && Stuck(o, w, roots, fs, memory, r))
    ensures forall r :: r in Wanted(o, roots, fs) ==> after[r] == Wanted(o, roots, fs)[r]
  {
    var p, a := PassAfter(o, w, roots), Answer(memory, false);
    var walked := Walked(o, w, roots, t);
    WalkAddsWanted(o, w, fs, roots, t);
    PassAfterKeeps(o, w, roots);
    assert !w.pass.readFault by { hide GoodWorld, IsRoots, Tree, Lists, DenyClosed; }
    hide Steady, Faithful, Walked, Judge, PassAfter, Stuck, Wanted;
    forall r ensures r in after <==> r in Wanted(o, roots, fs) || (r in t.documents && Stuck(o, w, roots, fs, memory, r)) {
      SurvivesIff(o, w, fs, roots, memory, r);
      assert r in walked <==> r in t.documents || r in Wanted(o, roots, fs);
    }
  }

  lemma PassAfterKeeps(o: Options, w: World, roots: seq<Path>)
    ensures PassAfter(o, w, roots).roots == roots && PassAfter(o, w, roots).readFault == w.pass.readFault
    ensures PassAfter(o, w, roots).table == w.pass.table
    ensures PassAfter(o, w, roots).learnFault == w.pass.learnFault && PassAfter(o, w, roots).forgetFault == w.pass.forgetFault
  {
    hide AllShown, UnvouchedOf;
  }

  // ---------------------------------------------------------------------------------------
  // The theorems

  /** A scan that runs to completion, from these tables and this memory to those rows and that memory. */
  ghost predicate Completes(o: Options, w: World, fs: Files, roots: seq<Path>, t: Tables, memory: MountMemory,
                            after: map<Path, Row>, memory': MountMemory, y: Tally) {
    && Steady(o, w, fs, roots) && roots != [] && y.reconciled
    && Reconciled(PassAfter(o, w, roots), Walked(o, w, roots, t), memory, after, memory', y)
  }

  /** Incremental equals rebuild: over the same files, a scan from any catalog ends with exactly the rows
      a scan from an empty one gives, if and only if no row is stuck. */
  lemma IncrementalEqualsRebuild(o: Options, fs: Files, roots: seq<Path>,
                                 w: World, t: Tables, memory: MountMemory, after: map<Path, Row>, memory': MountMemory, y: Tally,
                                 w0: World, t0: Tables, memory0: MountMemory, rebuilt: map<Path, Row>, memory0': MountMemory, y0: Tally)
    requires Completes(o, w, fs, roots, t, memory, after, memory', y) && Faithful(fs, t.documents)
    requires Completes(o, w0, fs, roots, t0, memory0, rebuilt, memory0', y0) && t0.documents == map[]
    ensures rebuilt == Wanted(o, roots, fs)
    ensures after == rebuilt <==> forall r :: r in t.documents ==> !Stuck(o, w, roots, fs, memory, r)
  {
    hide Steady, Reconciled, Walked, Wanted;
    assert Faithful(fs, t0.documents);
    ScanLeaves(o, w, fs, roots, t, memory, after, memory', y);
    ScanLeaves(o, w0, fs, roots, t0, memory0, rebuilt, memory0', y0);
    hide Stuck, Faithful;
    assert rebuilt == Wanted(o, roots, fs);
    if forall r :: r in t.documents ==> !Stuck(o, w, roots, fs, memory, r) {
      assert after == rebuilt;
    }
  }

  lemma {:induction false} WritesNone(o: Options, before: map<Path, Row>, visits: seq<Visit>)
    requires forall v :: v in visits ==> ActionOf(o, Lookup(before, v.path), v).write.None?
    ensures Writes(o, before, visits) == []
    decreases |visits|
  {
    hide ActionOf;
    if visits != [] {
      var n := |visits| - 1;
      assert visits == visits[..n] + [visits[n]] && visits[n] in visits;
      WritesNone(o, before, visits[..n]);
    }
  }

  lemma CurrentFileIsNotWritten(o: Options, roots: seq<Path>, fs: Files, p: Path)
    requires p in fs && WithinAny(p, roots)
    ensures ActionOf(o, Lookup(Wanted(o, roots, fs), p), Visit(p, EntryOf(fs[p]))).write.None?
  {
    hide WithinAny;
  }

  lemma SettledScanIsWanted(o: Options, w: World, fs: Files, roots: seq<Path>, t: Tables, memory: MountMemory,
                            after: map<Path, Row>, memory': MountMemory, y: Tally)
    requires Completes(o, w, fs, roots, t, memory, after, memory', y) && Faithful(fs, t.documents)
    requires forall r :: r in t.documents ==> !Stuck(o, w, roots, fs, memory, r)
    ensures after == Wanted(o, roots, fs)
  {
    hide Steady, Reconciled, Walked, Faithful, Wanted, Stuck;
    ScanLeaves(o, w, fs, roots, t, memory, after, memory', y);
  }

  lemma SecondWalkWritesNothing(o: Options, w: World, fs: Files, roots: seq<Path>, t: Tables)
    requires Steady(o, w, fs, roots) && t.documents == Wanted(o, roots, fs)
    ensures Writes(o, t.documents, AllShown(o, roots, w.listings)) == []
    ensures Walked(o, w, roots, t) == t.documents
  {
    hide Steady, AllShown, ActionOf, Wanted, UpsertAll, Docs, Writes, Lookup;
    var visits := AllShown(o, roots, w.listings);
    forall v | v in visits ensures ActionOf(o, Lookup(t.documents, v.path), v).write.None? {
      ShownIsCurrent(o, w, fs, roots, v);
    }
    WritesNone(o, t.documents, visits);
    WritesNone(o, t.documents, []);
    NoVisits(o, t, w.now);
  }

  lemma ShownIsCurrent(o: Options, w: World, fs: Files, roots: seq<Path>, v: Visit)
    requires Steady(o, w, fs, roots) && v in AllShown(o, roots, w.listings)
    ensures ActionOf(o, Lookup(Wanted(o, roots, fs), v.path), v).write.None?
  {
    hide Steady, AllShown, ActionOf, Wanted, EntryOf, Lookup, WithinAny;
    ShownIsInFiles(o, w, fs, roots, v);
    CurrentFileIsNotWritten(o, roots, fs, v.path);
    assert v == Visit(v.path, EntryOf(fs[v.path]));
  }

  /** Wanted rows are neither deleted nor pruned. */
  lemma SecondPass(o: Options, w: World, fs: Files, roots: seq<Path>, memory: MountMemory,
                   after: map<Path, Row>, memory': MountMemory, y: Tally)
    requires Steady(o, w, fs, roots) && roots != [] && y.reconciled
    requires Reconciled(PassAfter(o, w, roots), Wanted(o, roots, fs), memory, after, memory', y)
    ensures after == Wanted(o, roots, fs) && y.deleted == 0 && y.pruned == 0
    ensures memory' == ForgetStep(PassAfter(o, w, roots), memory, Wanted(o, roots, fs).Keys)
  {
    var p, a := PassAfter(o, w, roots), Answer(memory, false);
    PassAfterKeeps(o, w, roots);
    assert !w.pass.readFault by { hide GoodWorld, IsRoots, Tree, Lists, DenyClosed; }
    hide Steady, Wanted, PassAfter, Judge, ForgetStep, JudgedAll, Conserves, Answer;
    var wanted := Wanted(o, roots, fs);
    forall r | r in wanted ensures Judge(p, a, r) != Delete && Judge(p, a, r) != Prune {
      SurvivesIff(o, w, fs, roots, memory, r);
    }
    NothingDoomed(p, a, wanted, after, y);
  }

  /** A second scan over the same files writes nothing: no row, no deletion and, when every remembered
      volume is mounted, not the memory either. */
  lemma SecondScanWritesNothing(o: Options, fs: Files, roots: seq<Path>,
                                w: World, t: Tables, memory: MountMemory, after: map<Path, Row>, memory': MountMemory, y: Tally,
                                w2: World, t2: Tables, after2: map<Path, Row>, memory2: MountMemory, y2: Tally)
    requires Completes(o, w, fs, roots, t, memory, after, memory', y) && Faithful(fs, t.documents)
    requires forall r :: r in t.documents ==> !Stuck(o, w, roots, fs, memory, r)
    requires t2.documents == after && Completes(o, w2, fs, roots, t2, memory', after2, memory2, y2)
    ensures Writes(o, after, AllShown(o, roots, w2.listings)) == []
    ensures after2 == after && y2.deleted == 0 && y2.pruned == 0
    ensures SameVolumes(PassAfter(o, w, roots), PassAfter(o, w2, roots))
            && (forall m :: m in KnownOf(Answer(memory, false)) ==> m in LiveOf(w.pass.table))
            ==> memory2 == memory'
  {
    hide Steady, AllShown, Wanted, Walked, Stuck, Faithful, PassAfter, Writes, SameVolumes, KnownOf, LiveOf, ForgetStep, Answer;
    SettledScanIsWanted(o, w, fs, roots, t, memory, after, memory', y);
    SecondWalkWritesNothing(o, w2, fs, roots, t2);
    hide Reconciled;
    SecondPass(o, w2, fs, roots, memory', after2, memory2, y2);
    FirstMemory(o, w, fs, roots, t, memory, after, memory', y);
    PassAfterKeeps(o, w, roots);
    if SameVolumes(PassAfter(o, w, roots), PassAfter(o, w2, roots))
       && (forall m :: m in KnownOf(Answer(memory, false)) ==> m in LiveOf(w.pass.table)) {
      MemorySettles(PassAfter(o, w, roots), PassAfter(o, w2, roots), memory, Walked(o, w, roots, t).Keys, after.Keys);
    }
  }

  lemma FirstMemory(o: Options, w: World, fs: Files, roots: seq<Path>, t: Tables, memory: MountMemory,
                    after: map<Path, Row>, memory': MountMemory, y: Tally)
    requires Completes(o, w, fs, roots, t, memory, after, memory', y)
    ensures memory' == ForgetStep(PassAfter(o, w, roots), memory, Walked(o, w, roots, t).Keys)
  {
    PassAfterKeeps(o, w, roots);
    hide Steady, PassAfter, ForgetStep, Walked, JudgedAll, Conserves;
  }

  // ---------------------------------------------------------------------------------------
  // A directory replaced by a file

  /** "/a" and "/a/b". */
  const A: Path := [SLASH, 97]
  const B: Path := [SLASH, 97, SLASH, 98]

  /** The case the scan never settles: a catalogued directory becomes a file of the same name. Its old
      rows answer ENOTDIR, not ENOENT, so whatever the text rule, the volumes and the memory, they are
      kept by every scan though nothing is there. */
  lemma ReplacedDirectoryKeepsItsRows(o: Options, w: World, size: int, mtime: int, digest: Hash, t: Tables,
                                      memory: MountMemory, after: map<Path, Row>, memory': MountMemory, y: Tally)
    requires var fs: Files := map[ROOT := Folder, A := File(size, mtime, digest)];
             && Completes(o, w, fs, [ROOT], t, memory, after, memory', y) && Faithful(fs, t.documents)
    requires B in t.documents && !o.excluded(B)
    ensures B in after && B !in Wanted(o, [ROOT], map[ROOT := Folder, A := File(size, mtime, digest)])
  {
    var fs: Files := map[ROOT := Folder, A := File(size, mtime, digest)];
    RowUnderFile(o, w, fs, memory);
    hide Steady, Reconciled, Walked, Faithful, Stuck, Wanted;
    ScanLeaves(o, w, fs, [ROOT], t, memory, after, memory', y);
  }

  lemma RowUnderFile(o: Options, w: World, fs: Files, memory: MountMemory)
    requires A in fs && fs[A].File? && B !in fs && !o.excluded(B)
    ensures B !in Wanted(o, [ROOT], fs) && Stuck(o, w, [ROOT], fs, memory, B)
  {
    hide AbsentMounts, UnderAnyOf;
    assert ROOT in [ROOT] && Within(B, ROOT);
    assert A + [SLASH] <= B && StrictlyWithin(B, A) && A in fs;
    assert Blocked(fs, B);
  }
}
