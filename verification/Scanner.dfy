/** The scanner (internal/discovery/discovery.go): the walk of the include roots, its write buffer,
    and the deletion pass that follows it. */
module Scanners {
  import opened Bytes
  import opened Text
  import opened Paths
  import opened Catalog
  import opened Stores
  import opened Reconcile
  import opened Discovery

  /** What one scan finds outside itself: what WalkDir lists beneath each root, what the deletion
      pass sees, and how much of it happens before a cancellation or a store failure. */
  datatype World = World(
    listings: Path -> seq<Visit>,
    pass: Pass,
    now: int,
    visitsAllowed: nat,
    flushesLanding: nat)

  /** The pass that follows a walk of these roots. */
  function PassAfter(o: Options, w: World, roots: seq<Path>): Pass {
    w.pass.(roots := roots, unresolved := !AllVerified(o), excluded := o.excluded,
            unread := UnvouchedOf(o, AllShown(o, roots, w.listings)))
  }

  class Scanner {
    const store: Store

    var pending: seq<Document>
    var pendingRes: Counts
    var res: Counts
    var landing: nat
    var now: int

    /** The catalog the scan began with, what it has committed and counted, and what is queued. */
    ghost var base: Tables
    ghost var committed: seq<Write>
    ghost var queued: seq<Write>
    ghost var direct: Counts

    /** The counts describe committed rows: those, and what needed no row. */
    ghost predicate Valid()
      reads this, store
    {
      Coupled() && |pending| < FLUSH_EVERY
    }

    ghost predicate Coupled()
      reads this, store
    {
      && pending == Docs(queued) && pendingRes == Total(queued)
      && store.T() == UpsertAll(base, Docs(committed), now)
      && res == direct.Plus(Total(committed))
    }

    ghost predicate SameScan(base: Tables, now: int)
      reads this
    {
      this.base == base && this.now == now
    }

    constructor (store: Store)
      ensures this.store == store && pending == []
    {
      this.store := store;
      pending, pendingRes, res, landing := [], NONE, NONE, 0;
      now, base, committed, queued, direct := 0, EMPTY, [], [], NONE;
    }

    method Begin(w: World)
      modifies this
      ensures Valid() && SameScan(store.T(), w.now)
      ensures committed == [] && queued == [] && direct == NONE
    {
      hide UpsertAll, Docs, Total, Counts.Plus;
      ghost var t := store.T();
      pending, pendingRes, res, landing, now := [], NONE, NONE, w.flushesLanding, w.now;
      base, committed, queued, direct := t, [], [], NONE;
      NothingCommitted(t, w.now);
      assert store.T() == t;
      assert pending == Docs(queued);
      assert pendingRes == Total(queued);
      assert res == direct.Plus(Total(committed));
      assert store.T() == UpsertAll(base, Docs(committed), now);
    }

    /** What Valid says when nothing is queued. */
    lemma ReadOff()
      requires Valid() && queued == []
      ensures pending == [] && pendingRes == NONE
      ensures store.T() == UpsertAll(base, Docs(committed), now) && res == direct.Plus(Total(committed))
    {
    }

    /** abandon. */
    method Abandon()
      requires Valid()
      modifies this`pending, this`pendingRes, this`queued
      ensures Valid() && queued == []
    {
      pending, pendingRes, queued := [], NONE, [];
    }

    /** flush: buffer and staged counts are surrendered either way; they count once they commit. */
    method Flush() returns (ok: bool)
      requires Coupled()
      modifies this`pending, this`pendingRes, this`res, this`landing, this`committed, this`queued
      modifies store`documents, store`content
      ensures Valid() && queued == []
      ensures ok <==> old(pending) == [] || old(landing) > 0
      ensures committed == if ok then old(committed) + old(queued) else old(committed)
      ensures !ok ==> store.T() == old(store.T()) && res == old(res)
    {
      hide UpsertAll, Counts.Plus;
      if |pending| == 0 {
        assert committed + queued == committed;
        return true;
      }
      var batch, staged := pending, pendingRes;
      ok := store.UpsertDocuments(batch, now, landing == 0);
      if ok {
        landing := landing - 1;
        UpsertAllAppend(base, Docs(committed), batch, now);
        DocsAppend(committed, queued);
        TotalAppend(committed, queued);
        PlusAssociative(direct, Total(committed), Total(queued));
        committed := committed + queued;
        res := res.Plus(staged);
      }
      pending, pendingRes, queued := [], NONE, [];
    }

    /** buffer, with the count its caller stages first. */
    method Buffer(w: Write) returns (ok: bool)
      requires Valid()
      modifies this`pending, this`pendingRes, this`res, this`landing, this`committed, this`queued
      modifies store`documents, store`content
      ensures Valid()
      ensures ok ==> committed + queued == old(committed + queued) + [w]
      ensures !ok ==> committed == old(committed) && queued == []
    {
      hide UpsertAll, Counts.Plus;
      pendingRes := pendingRes.Plus(w.counts);
      pending := pending + [w.doc];
      TotalAppend(queued, [w]);
      DocsAppend(queued, [w]);
      queued := queued + [w];
      ok := true;
      if |pending| >= FLUSH_EVERY {
        ok := Flush();
      }
      assert ok ==> committed + queued == old(committed + queued) + [w];
    }

    /** A count with no write behind it. */
    method Bump(c: Counts)
      requires Valid()
      modifies this`res, this`direct
      ensures Valid() && direct == old(direct).Plus(c)
    {
      res := res.Plus(c);
      direct := direct.Plus(c);
    }

    /** No write of this scan names the path. */
    ghost predicate Unwritten(path: Path)
      reads this
    {
      forall w :: w in committed + queued ==> w.doc.path != path
    }

    /** A path this scan has not written still has the row the scan began with. */
    method RowAt(path: Path) returns (row: Option<Row>)
      requires Valid() && Unwritten(path)
      ensures row == Lookup(base.documents, path)
    {
      row := store.GetByPath(path);
      forall d | d in Docs(committed) ensures d.path != path {
        var i :| 0 <= i < |committed| && Docs(committed)[i] == d;
        assert committed[i] in committed + queued;
      }
      UpsertElsewhere(base, Docs(committed), now, path);
    }

    /** Carries an action out: a write is buffered with its count, a bare count goes straight to
        the result. */
    method Enact(path: Path, a: Action) returns (ok: bool)
      requires Valid()
      modifies this`pending, this`pendingRes, this`res, this`landing, this`committed, this`queued, this`direct
      modifies store`documents, store`content
      ensures Valid()
      ensures direct == old(direct).Plus(Counted(a))
      ensures ok ==> committed + queued == old(committed + queued) + Written(path, a)
      ensures !ok ==> committed == old(committed) && queued == []
    {
      match a.write
      case Some(row) =>
        ok := Buffer(Write(Document(path, row), a.counts));
      case None =>
        Bump(a.counts);
        assert committed + queued == committed + queued + Written(path, a);
        return true;
    }

    /** noteUnread. */
    method NoteUnread(path: Path, info: Info, reason: UnreadReason, row: Option<Row>) returns (ok: bool)
      requires Valid()
      modifies this`pending, this`pendingRes, this`res, this`landing, this`committed, this`queued, this`direct
      modifies store`documents, store`content
      ensures Valid()
      ensures direct == old(direct).Plus(Counted(UnreadAction(row, info, reason)))
      ensures ok ==> committed + queued == old(committed + queued) + Written(path, UnreadAction(row, info, reason))
      ensures !ok ==> committed == old(committed) && queued == []
    {
      hide Valid;
      var one := if reason.Dataless? then ONE_DATALESS else ONE_UNREAD;
      if HasBytes(row) {
        if !reason.Dataless? {
          ok := Enact(path, NOTHING);
          return;
        }
        if StatMatches(row, info) {
          ok := Enact(path, Action(None, one));
          return;
        }
      }
      if row.Some? && row.value.source == Unread(reason) && StatMatches(row, info) {
        ok := Enact(path, Action(None, one));
        return;
      }
      ok := Enact(path, Action(Some(RowOf(Unread(reason), info)), one));
    }

    /** processFile. */
    method ProcessFile(path: Path, info: Info, reading: Reading) returns (ok: bool)
      requires Valid() && Unwritten(path)
      modifies this`pending, this`pendingRes, this`res, this`landing, this`committed, this`queued, this`direct
      modifies store`documents, store`content
      ensures Valid()
      ensures var a := FileAction(Lookup(base.documents, path), info, reading);
              && direct == old(direct).Plus(Counted(a))
              && (ok ==> committed + queued == old(committed + queued) + Written(path, a))
      ensures !ok ==> committed == old(committed) && queued == []
    {
      var row := RowAt(path);
      hide Valid, Unwritten;
      if HasBytes(row) && StatMatches(row, info) {
        ok := Enact(path, Action(None, ONE_SAME));
        return;
      }
      if row.Some? && row.value.source == Unread(IoError) && StatMatches(row, info) {
        ok := Enact(path, Action(None, ONE_UNREAD));
        return;
      }
      match reading {
        case ReadGone => ok := Enact(path, NOTHING);
        case ReadDenied => ok := NoteUnread(path, info, Denied, row);
        case ReadFailed => ok := NoteUnread(path, info, IoError, row);
        case Digest(hash) =>
          var counts := ONE_DISCOVERED;
          if HasBytes(row) {
            counts := if row.value.source.hash == hash then ONE_SAME else ONE_CHANGED;
          }
          ok := Enact(path, Action(Some(RowOf(Read(hash), info)), counts));
      }
    }

    /** The walk callback on one entry it does not prune. */
    method Process(o: Options, v: Visit) returns (ok: bool)
      requires Valid() && Unwritten(v.path)
      modifies this`pending, this`pendingRes, this`res, this`landing, this`committed, this`queued, this`direct
      modifies store`documents, store`content
      ensures Valid()
      ensures direct == old(direct).Plus(DirectOf(o, base.documents, v))
      ensures ok ==> committed + queued == old(committed + queued) + WriteOf(o, base.documents, v)
      ensures !ok ==> committed == old(committed) && queued == []
    {
      if !v.entry.Regular? || !o.text(v.path) || o.excluded(v.path) || !v.entry.status.Stated? {
        ok := Enact(v.path, NOTHING);
        return;
      }
      var info := v.entry.status.info;
      if info.dataless {
        var row := RowAt(v.path);
        ok := NoteUnread(v.path, info, Dataless, row);
      } else {
        ok := ProcessFile(v.path, info, v.entry.status.reading);
      }
    }

    /** walkTree. `n` is how many entries of the listing were dealt with. */
    method WalkTree(o: Options, listing: seq<Visit>, allowed: nat, ghost before: seq<Visit>)
      returns (ok: bool, unknown: set<Path>, used: nat, ghost n: nat)
      requires Valid() && Preorder(listing)
      requires committed + queued == Writes(o, base.documents, before) && direct == Direct(o, base.documents, before)
      requires forall u, v :: u in before && v in listing ==> u.path != v.path
      modifies this`pending, this`pendingRes, this`res, this`landing, this`committed, this`queued, this`direct
      modifies store`documents, store`content
      ensures Valid() && n <= |listing|
      ensures direct == Direct(o, base.documents, before + Shown(o, listing, n))
      ensures committed <= Writes(o, base.documents, before + Shown(o, listing, n))
      ensures ok ==> n == |listing| && committed + queued == Writes(o, base.documents, before + Shown(o, listing, n))
      ensures ok ==> unknown == UnvouchedOf(o, ShownOf(o, listing)) && used <= allowed
    {
      hide Valid, Writes, Direct, WriteOf, DirectOf, Shown, UnvouchedOf, SkipsFrom, Unvouched, Prunes,
        StrictlyWithin, Skipped, Preorder;
      unknown, used, n := {}, 0, 0;
      var skip: Option<Path> := None;
      NothingShown(o, before, listing);
      for i := 0 to |listing|
        invariant n == i && used <= allowed && Valid()
        invariant SkipsFrom(o, listing, i, skip)
        invariant committed + queued == Writes(o, base.documents, before + Shown(o, listing, i))
        invariant direct == Direct(o, base.documents, before + Shown(o, listing, i))
        invariant unknown == UnvouchedOf(o, Shown(o, listing, i))
      {
        SkipDecides(o, listing, i, skip);
        ghost var seen := before + Shown(o, listing, i);
        if skip.Some? && StrictlyWithin(listing[i].path, skip.value) {
          SkipStays(o, listing, i, skip);
          assert Shown(o, listing, i + 1) == Shown(o, listing, i) by { NotShown(o, listing, i); }
        } else {
          if used == allowed {
            return false, unknown, used, n;
          }
          used := used + 1;
          ShownNext(o, before, listing, i);
          if Unvouched(o, listing[i]) {
            unknown := unknown + {listing[i].path};
          }
          UnvouchedNext(o, Shown(o, listing, i), listing[i]);
          if Prunes(o, listing[i]) {
            SkipStarts(o, listing, i, skip);
            skip := Some(listing[i].path);
          } else {
            SkipGoesOn(o, listing, i, skip);
          }
          FreshPath(o, base.documents, before, listing, i);
          WritesNext(o, base.documents, seen, listing[i]);
          ok := Process(o, listing[i]);
          n := i + 1;
          if !ok {
            return false, unknown, used, n;
          }
        }
        n := i + 1;
      }
      return true, unknown, used, n;
    }

    /** canonicalRoot for every configured root. */
    method CanonicalRoots(o: Options) returns (resolved: seq<Path>, allVerified: bool)
      ensures resolved == CanonicalOf(o) && allVerified == AllVerified(o)
    {
      hide Sorted, StrictlySorted, CleanAll;
      var cleaned := Sorted(PathSet(CleanAll(o.roots)));
      SortedMembers(PathSet(CleanAll(o.roots)));
      resolved, allVerified := [], true;
      for i := 0 to |cleaned|
        invariant resolved == KeptRoots(o, cleaned[..i])
        invariant allVerified <==> forall r :: r in cleaned[..i] ==> Verified(o.resolve(r))
      {
        assert cleaned[..i + 1][..i] == cleaned[..i] && cleaned[..i + 1] == cleaned[..i] + [cleaned[i]];
        if !Verified(o.resolve(cleaned[i])) {
          allVerified := false;
        }
        match o.resolve(cleaned[i])
        case Resolved(root) => resolved := resolved + [root];
        case MissingRoot(root, _) => resolved := resolved + [root];
        case Unresolvable =>
      }
      assert cleaned[..|cleaned|] == cleaned;
    }

    /** resolveRoots: every configured root is resolved, only then are nested ones dropped, and then
        excluded ones. */
    method ResolveRoots(o: Options) returns (roots: seq<Path>, allVerified: bool)
      ensures IsRoots(o, roots) && allVerified == AllVerified(o)
    {
      hide Antichain, StrictlySorted, CanonicalOf, CleanAll, Outermost, AllVerified;
      var resolved;
      resolved, allVerified := CanonicalRoots(o);
      var normal := NormalizeRoots(resolved);
      roots := [];
      NoRoots();
      for i := 0 to |normal|
        invariant Antichain(roots) && StrictlySorted(roots)
        invariant forall r :: r in roots <==> r in normal[..i] && !o.excluded(r)
      {
        assert normal[..i + 1] == normal[..i] + [normal[i]];
        if !o.excluded(normal[i]) {
          AdmitRoot(normal, i, roots);
          roots := roots + [normal[i]];
        }
      }
      assert normal[..|normal|] == normal;
    }

    /** One root of the scan: its walk, and the flush at its boundary. */
    method WalkRoot(o: Options, w: World, roots: seq<Path>, i: nat, allowed: nat)
      returns (ok: bool, more: set<Path>, spent: nat, ghost shown: seq<Visit>)
      requires Valid() && queued == [] && GoodWorld(o, w) && IsRoots(o, roots) && i < |roots|
      requires committed == Writes(o, base.documents, AllShown(o, roots[..i], w.listings))
      requires direct == Direct(o, base.documents, AllShown(o, roots[..i], w.listings))
      modifies this`pending, this`pendingRes, this`res, this`landing, this`committed, this`queued, this`direct
      modifies store`documents, store`content
      ensures Valid() && queued == [] && shown <= AllShown(o, roots, w.listings)
      ensures committed <= Writes(o, base.documents, shown) && direct == Direct(o, base.documents, shown)
      ensures ok ==> shown == AllShown(o, roots[..i + 1], w.listings) && committed == Writes(o, base.documents, shown)
      ensures ok ==> spent <= allowed
                     && UnvouchedOf(o, shown) == UnvouchedOf(o, AllShown(o, roots[..i], w.listings)) + more
    {
      hide Valid, Writes, Direct, AllShown, Shown, GoodWorld, IsRoots, UnvouchedOf;
      ghost var before := AllShown(o, roots[..i], w.listings);
      RootsDisjoint(o, w, roots, i);
      assert committed + queued == committed;
      ghost var n;
      ok, more, spent, n := WalkTree(o, w.listings(roots[i]), allowed, before);
      shown := before + Shown(o, w.listings(roots[i]), n);
      ShownIsPrefix(o, w, roots, i, n);
      if !ok {
        Abandon();
        return;
      }
      NextRoot(o, w, roots, i);
      UnvouchedUnion(o, before, ShownOf(o, w.listings(roots[i])));
      ok := FlushRoot();
    }

    /** The flush at a root boundary; nothing is queued after it. */
    method FlushRoot() returns (ok: bool)
      requires Valid()
      modifies this`pending, this`pendingRes, this`res, this`landing, this`committed, this`queued
      modifies store`documents, store`content
      ensures Valid() && queued == []
      ensures committed == if ok then old(committed + queued) else old(committed)
    {
      ok := Flush();
    }

    method WalkRoots(o: Options, w: World, roots: seq<Path>)
      returns (ok: bool, unknown: set<Path>, ghost shown: seq<Visit>)
      requires Valid() && queued == [] && committed == [] && direct == NONE && GoodWorld(o, w) && IsRoots(o, roots)
      modifies this`pending, this`pendingRes, this`res, this`landing, this`committed, this`queued, this`direct
      modifies store`documents, store`content
      ensures Valid() && queued == [] && shown <= AllShown(o, roots, w.listings)
      ensures committed <= Writes(o, base.documents, shown) && direct == Direct(o, base.documents, shown)
      ensures ok ==> shown == AllShown(o, roots, w.listings) && committed == Writes(o, base.documents, shown)
                     && unknown == UnvouchedOf(o, shown)
    {
      hide Valid, Writes, Direct, AllShown, GoodWorld, IsRoots, UnvouchedOf;
      ok, shown, unknown := true, [], {};
      var used := 0;
      NothingWalked(o, w, base.documents, roots);
      for i := 0 to |roots|
        invariant Valid() && queued == [] && used <= w.visitsAllowed
        invariant shown == AllShown(o, roots[..i], w.listings) && unknown == UnvouchedOf(o, shown)
        invariant committed == Writes(o, base.documents, shown) && direct == Direct(o, base.documents, shown)
      {
        var more, spent;
        ok, more, spent, shown := WalkRoot(o, w, roots, i, w.visitsAllowed - used);
        if !ok {
          return;
        }
        used, unknown := used + spent, unknown + more;
      }
      assert roots[..|roots|] == roots;
      ok := true;
    }

    /** Scan. `shown` is what the walk was shown; the counts and the committed rows are those of
        exactly these entries, however the scan ends. */
    method Scan(o: Options, w: World)
      returns (walked: bool, t: Tally, cancelled: bool, roots: seq<Path>, ghost shown: seq<Visit>)
      requires GoodWorld(o, w) && WellFormed(w.pass, store.memory)
      requires forall r :: r in store.documents ==> Cleaned(r)
      modifies this, store`documents, store`content, store`memory
      ensures pending == [] && pendingRes == NONE && queued == []
      ensures IsRoots(o, roots) && shown <= AllShown(o, roots, w.listings)
      ensures committed <= Writes(o, old(store.documents), shown)
      ensures res == Direct(o, old(store.documents), shown).Plus(Total(committed))
      ensures !walked ==> store.T() == UpsertAll(old(store.T()), Docs(committed), w.now) && store.memory == old(store.memory)
      ensures walked ==> shown == AllShown(o, roots, w.listings) && committed == Writes(o, old(store.documents), shown)
      ensures walked ==> Reconciled(PassAfter(o, w, roots), UpsertAll(old(store.T()), Docs(committed), w.now).documents,
                                    old(store.memory), store.documents, store.memory, t)
    {
      hide Valid, Writes, Direct, UpsertAll, AllShown, GoodWorld, IsRoots, UnvouchedOf, Reconciled, WellFormed, Total, Docs,
        Counts.Plus, AllVerified;
      t, cancelled := Tally(0, 0, 0, 0, false), false;
      ghost var before := store.T();
      Begin(w);
      var allVerified;
      roots, allVerified := ResolveRoots(o);
      var unknown;
      walked, unknown, shown := WalkRoots(o, w, roots);
      ReadOff();
      if !walked {
        return;
      }
      var p := w.pass.(roots := roots, unresolved := !allVerified, excluded := o.excluded, unread := unknown);
      assert p == PassAfter(o, w, roots);
      RowsStayCleaned(o, w, roots, before, shown);
      PassIsWellFormed(o, w, roots, store.memory);
      assert store.documents == store.T().documents;
      var reconciler := new Reconciler(store);
      t, cancelled := reconciler.ReconcileDeleted(p);
    }
  }

  // ---------------------------------------------------------------------------------------
  // The world a scan meets

  /** WalkDir lists what lies within its root, by cleaned absolute paths; roots resolve to such. */
  ghost predicate GoodWorld(o: Options, w: World) {
    && (forall r :: Preorder(w.listings(r)) && forall v :: v in w.listings(r) ==> Within(v.path, r) && Cleaned(v.path))
    && (forall r :: o.resolve(r).Unresolvable? || Cleaned(o.resolve(r).root))
  }

  lemma NothingCommitted(t: Tables, now: int)
    ensures Docs([]) == [] && Total([]) == NONE && UpsertAll(t, Docs([]), now) == t && NONE.Plus(Total([])) == NONE
  {
    hide UpsertOne;
    assert Docs([]) == [];
    assert Total([]) == NONE;
    PlusNone(NONE);
  }

  lemma NothingWalked(o: Options, w: World, documents: map<Path, Row>, roots: seq<Path>)
    ensures AllShown(o, roots[..0], w.listings) == []
    ensures Writes(o, documents, []) == [] && Direct(o, documents, []) == NONE && UnvouchedOf(o, []) == {}
  {
  }

  lemma NextRoot(o: Options, w: World, roots: seq<Path>, i: nat)
    requires i < |roots|
    ensures AllShown(o, roots[..i + 1], w.listings)
         == AllShown(o, roots[..i], w.listings) + Shown(o, w.listings(roots[i]), |w.listings(roots[i])|)
  {
    assert roots[..i + 1][..i] == roots[..i];
  }

  lemma {:induction false} AllShownWithin(o: Options, w: World, roots: seq<Path>)
    requires GoodWorld(o, w)
    ensures forall v :: v in AllShown(o, roots, w.listings) ==> WithinAny(v.path, roots) && Cleaned(v.path)
    decreases |roots|
  {
    hide ShownOf, Cleaned, Within;
    if roots != [] {
      var n := |roots| - 1;
      AllShownWithin(o, w, roots[..n]);
      ShownInListing(o, w.listings(roots[n]));
      forall v | v in AllShown(o, roots, w.listings) ensures WithinAny(v.path, roots) && Cleaned(v.path) {
        if v in AllShown(o, roots[..n], w.listings) {
          var r :| r in roots[..n] && Within(v.path, r);
          assert r in roots;
        } else {
          assert v in ShownOf(o, w.listings(roots[n]));
          assert roots[n] in roots;
        }
      }
    }
  }

  lemma ShownInListing(o: Options, listing: seq<Visit>)
    ensures forall v :: v in ShownOf(o, listing) ==> v in listing
  {
    ShownAreListed(o, listing, |listing|);
    assert listing[..|listing|] == listing;
  }

  /** Roots that do not contain one another are walked over different paths. */
  lemma RootsDisjoint(o: Options, w: World, roots: seq<Path>, i: nat)
    requires GoodWorld(o, w) && IsRoots(o, roots) && i < |roots|
    ensures forall u, v :: u in AllShown(o, roots[..i], w.listings) && v in w.listings(roots[i]) ==> u.path != v.path
    ensures Preorder(w.listings(roots[i]))
  {
    AllShownWithin(o, w, roots[..i]);
    hide AllShown, Within, Cleaned, Preorder;
    forall u, v | u in AllShown(o, roots[..i], w.listings) && v in w.listings(roots[i]) ensures u.path != v.path {
      var r :| r in roots[..i] && Within(u.path, r);
      var j :| 0 <= j < i && roots[..i][j] == r;
      if u.path == v.path {
        WithinChain(u.path, roots[j], roots[i]);
      }
    }
  }

  /** What a walk has been shown part-way is the beginning of what it would be shown in all. */
  lemma {:induction false} ShownIsPrefix(o: Options, w: World, roots: seq<Path>, i: nat, n: nat)
    requires i < |roots| && n <= |w.listings(roots[i])|
    ensures AllShown(o, roots[..i], w.listings) + Shown(o, w.listings(roots[i]), n) <= AllShown(o, roots, w.listings)
    decreases |roots|
  {
    var last := |roots| - 1;
    if i < last {
      assert roots[..last][..i] == roots[..i];
      ShownIsPrefix(o, w, roots[..last], i, n);
    } else {
      ShownGrows(o, w.listings(roots[i]), n, |w.listings(roots[i])|);
    }
  }

  lemma {:induction false} ShownGrows(o: Options, listing: seq<Visit>, n: nat, m: nat)
    requires n <= m <= |listing|
    ensures Shown(o, listing, n) <= Shown(o, listing, m)
    decreases m
  {
    hide Skipped;
    if n < m {
      ShownGrows(o, listing, n, m - 1);
    }
  }

  lemma UnvouchedUnion(o: Options, a: seq<Visit>, b: seq<Visit>)
    ensures UnvouchedOf(o, a + b) == UnvouchedOf(o, a) + UnvouchedOf(o, b)
  {
    hide Unvouched;
    forall p ensures p in UnvouchedOf(o, a + b) <==> p in UnvouchedOf(o, a) + UnvouchedOf(o, b) {
      if p in UnvouchedOf(o, a) {
        var v :| v in a && Unvouched(o, v) && v.path == p;
        assert v in a + b;
      }
      if p in UnvouchedOf(o, b) {
        var v :| v in b && Unvouched(o, v) && v.path == p;
        assert v in a + b;
      }
    }
  }

  predicate Names(docs: seq<Document>, p: Path) {
    exists d :: d in docs && d.path == p
  }

  lemma {:induction false} UpsertedPaths(t: Tables, docs: seq<Document>, now: int)
    ensures forall p :: p in UpsertAll(t, docs, now).documents <==>
              p in t.documents || Names(docs, p)
    decreases |docs|
  {
    if docs != [] {
      var n := |docs| - 1;
      UpsertedPaths(t, docs[..n], now);
      assert docs == docs[..n] + [docs[n]];
      forall p ensures Names(docs, p) <==> p == docs[n].path || Names(docs[..n], p) {
        if d :| d in docs && d.path == p {
          assert d == docs[n] || d in docs[..n];
        }
        if d :| d in docs[..n] && d.path == p {
          assert d in docs;
        }
        assert docs[n] in docs;
      }
    }
  }

  lemma RowsStayCleaned(o: Options, w: World, roots: seq<Path>, t: Tables, shown: seq<Visit>)
    requires GoodWorld(o, w) && shown == AllShown(o, roots, w.listings)
    requires forall r :: r in t.documents ==> Cleaned(r)
    ensures forall r :: r in UpsertAll(t, Docs(Writes(o, t.documents, shown)), w.now).documents ==> Cleaned(r)
  {
    var writes := Writes(o, t.documents, shown);
    UpsertedPaths(t, Docs(writes), w.now);
    WritesAreVisited(o, t.documents, shown);
    AllShownWithin(o, w, roots);
    hide Writes, AllShown, Cleaned, UpsertAll;
    forall r | r in UpsertAll(t, Docs(writes), w.now).documents ensures Cleaned(r) {
      if r !in t.documents {
        var d :| d in Docs(writes) && d.path == r;
        var i :| 0 <= i < |writes| && Docs(writes)[i] == d;
        assert writes[i] in writes;
      }
    }
  }

  lemma {:induction false} KeptRootsCleaned(o: Options, configured: seq<Path>)
    requires forall r :: o.resolve(r).Unresolvable? || Cleaned(o.resolve(r).root)
    ensures forall r :: r in KeptRoots(o, configured) ==> Cleaned(r)
    decreases |configured|
  {
    hide Cleaned;
    if configured != [] {
      KeptRootsCleaned(o, configured[..|configured| - 1]);
    }
  }

  lemma CleanAllCleaned(paths: seq<Path>)
    requires forall r :: r in paths ==> Cleaned(r)
    ensures forall r :: r in CleanAll(paths) ==> Cleaned(r)
  {
    hide Clean;
    forall r | r in CleanAll(paths) ensures Cleaned(r) {
      var i :| 0 <= i < |paths| && CleanAll(paths)[i] == r;
      assert paths[i] in paths;
      CleanIsCleaned(paths[i]);
    }
  }

  lemma PassIsWellFormed(o: Options, w: World, roots: seq<Path>, memory: MountMemory)
    requires GoodWorld(o, w) && IsRoots(o, roots) && WellFormed(w.pass, memory)
    ensures WellFormed(PassAfter(o, w, roots), memory)
  {
    hide AllShown, Preorder, Clean, KeptRoots;
    KeptRootsCleaned(o, Sorted(PathSet(CleanAll(o.roots))));
    CleanAllCleaned(CanonicalOf(o));
    AllShownWithin(o, w, roots);
  }

  lemma NoRoots()
    ensures Antichain([]) && StrictlySorted([])
  {
  }

  lemma AdmitRoot(normal: seq<Path>, i: nat, roots: seq<Path>)
    requires Antichain(normal) && StrictlySorted(normal) && i < |normal|
    requires Antichain(roots) && StrictlySorted(roots) && forall r :: r in roots ==> r in normal[..i]
    ensures Antichain(roots + [normal[i]]) && StrictlySorted(roots + [normal[i]])
  {
    forall k | 0 <= k < |roots|
      ensures Less(roots[k], normal[i]) && !Within(roots[k], normal[i]) && !Within(normal[i], roots[k])
    {
      assert roots[k] in roots;
      var j :| 0 <= j < i && normal[..i][j] == roots[k];
      assert normal[j] == roots[k];
    }
  }

  // ---------------------------------------------------------------------------------------
  // The walk's order

  /** `skip` is the pruned directory whose contents WalkDir is passing over, if any. */
  ghost predicate SkipsFrom(o: Options, listing: seq<Visit>, i: nat, skip: Option<Path>) {
    && (skip.Some? ==> exists j :: 0 <= j < i && j < |listing| && listing[j].path == skip.value && Prunes(o, listing[j]))
    && forall j, k :: 0 <= j < i <= k < |listing| && Prunes(o, listing[j]) && StrictlyWithin(listing[k].path, listing[j].path) ==>
         skip.Some? && StrictlyWithin(listing[k].path, skip.value)
  }

  /** Whether WalkDir shows entry i is whether it lies beneath `skip`. */
  lemma SkipDecides(o: Options, listing: seq<Visit>, i: nat, skip: Option<Path>)
    requires Preorder(listing) && i < |listing| && SkipsFrom(o, listing, i, skip)
    ensures Skipped(o, listing, listing[i]) <==> skip.Some? && StrictlyWithin(listing[i].path, skip.value)
  {
    hide Prunes, StrictlyWithin;
    if Skipped(o, listing, listing[i]) {
      var u :| u in listing && Prunes(o, u) && StrictlyWithin(listing[i].path, u.path);
      var j :| 0 <= j < |listing| && listing[j] == u;
    }
  }

  lemma SkipStays(o: Options, listing: seq<Visit>, i: nat, skip: Option<Path>)
    requires i < |listing| && SkipsFrom(o, listing, i, skip)
    requires skip.Some? && StrictlyWithin(listing[i].path, skip.value)
    ensures SkipsFrom(o, listing, i + 1, skip)
  {
    hide Prunes;
    forall j, k | 0 <= j < i + 1 <= k < |listing| && Prunes(o, listing[j]) && StrictlyWithin(listing[k].path, listing[j].path)
      ensures StrictlyWithin(listing[k].path, skip.value)
    {
    }
  }

  lemma SkipStarts(o: Options, listing: seq<Visit>, i: nat, skip: Option<Path>)
    requires Preorder(listing) && i < |listing| && SkipsFrom(o, listing, i, skip)
    requires !(skip.Some? && StrictlyWithin(listing[i].path, skip.value)) && Prunes(o, listing[i])
    ensures SkipsFrom(o, listing, i + 1, Some(listing[i].path))
  {
    hide Prunes, StrictlyWithin;
  }

  lemma SkipGoesOn(o: Options, listing: seq<Visit>, i: nat, skip: Option<Path>)
    requires Preorder(listing) && i < |listing| && SkipsFrom(o, listing, i, skip) && !Prunes(o, listing[i])
    ensures SkipsFrom(o, listing, i + 1, skip)
  {
    hide Prunes, StrictlyWithin;
  }

  lemma NothingShown(o: Options, before: seq<Visit>, listing: seq<Visit>)
    ensures before + Shown(o, listing, 0) == before && UnvouchedOf(o, Shown(o, listing, 0)) == {}
    ensures SkipsFrom(o, listing, 0, None)
  {
  }

  lemma NotShown(o: Options, listing: seq<Visit>, i: nat)
    requires i < |listing| && Skipped(o, listing, listing[i])
    ensures Shown(o, listing, i + 1) == Shown(o, listing, i)
  {
  }

  lemma ShownNext(o: Options, before: seq<Visit>, listing: seq<Visit>, i: nat)
    requires i < |listing| && !Skipped(o, listing, listing[i])
    ensures Shown(o, listing, i + 1) == Shown(o, listing, i) + [listing[i]]
    ensures before + Shown(o, listing, i + 1) == (before + Shown(o, listing, i)) + [listing[i]]
  {
  }

  lemma UnvouchedNext(o: Options, seen: seq<Visit>, v: Visit)
    ensures UnvouchedOf(o, seen + [v]) == UnvouchedOf(o, seen) + (if Unvouched(o, v) then {v.path} else {})
  {
    hide Unvouched;
    forall p ensures p in UnvouchedOf(o, seen + [v]) <==> p in UnvouchedOf(o, seen) || (Unvouched(o, v) && p == v.path) {
      if Unvouched(o, v) {
        assert v in seen + [v];
      }
      if p in UnvouchedOf(o, seen) {
        var u :| u in seen && Unvouched(o, u) && u.path == p;
        assert u in seen + [v];
      }
    }
  }

  lemma WritesNext(o: Options, before: map<Path, Row>, seen: seq<Visit>, v: Visit)
    ensures Writes(o, before, seen + [v]) == Writes(o, before, seen) + WriteOf(o, before, v)
    ensures Direct(o, before, seen + [v]) == Direct(o, before, seen).Plus(DirectOf(o, before, v))
  {
    assert (seen + [v])[..|seen|] == seen;
  }

  lemma {:induction false} ShownAreListed(o: Options, listing: seq<Visit>, n: nat)
    requires n <= |listing|
    ensures forall v :: v in Shown(o, listing, n) ==> v in listing[..n]
    decreases n
  {
    hide Skipped;
    if n > 0 {
      ShownAreListed(o, listing, n - 1);
      assert listing[..n] == listing[..n - 1] + [listing[n - 1]];
    }
  }

  /** The next path shown has not been written by this scan. */
  lemma FreshPath(o: Options, documents: map<Path, Row>, before: seq<Visit>, listing: seq<Visit>, i: nat)
    requires Preorder(listing) && i < |listing|
    requires forall u, v :: u in before && v in listing ==> u.path != v.path
    ensures forall w :: w in Writes(o, documents, before + Shown(o, listing, i)) ==> w.doc.path != listing[i].path
  {
    hide Writes;
    var seen := before + Shown(o, listing, i);
    WritesAreVisited(o, documents, seen);
    ShownAreListed(o, listing, i);
    forall w | w in Writes(o, documents, seen) ensures w.doc.path != listing[i].path {
      var v :| v in seen && v.path == w.doc.path;
      if v in before {
        assert listing[i] in listing;
      } else {
        var j :| 0 <= j < i && listing[..i][j] == v;
      }
    }
  }
}
