/** Change detection (internal/discovery/discovery.go): what the walk of the include roots decides
    about each entry it is shown, and what it writes. */
module Discovery {
  import opened Bytes
  import opened Text
  import opened Paths
  import opened Catalog
  import opened Stores
  import opened Reconcile

  // ---------------------------------------------------------------------------------------
  // What the walk is shown

  datatype Info = Info(size: int, mtime: int, dataless: bool)

  /** Opening and hashing a file. */
  datatype Reading = Digest(hash: Hash) | ReadGone | ReadDenied | ReadFailed

  /** d.Info() of a directory entry. */
  datatype Status = Stated(info: Info, reading: Reading) | StatGone | StatFailed

  /** One entry as filepath.WalkDir hands it over. WalkError is a callback with an error set. */
  datatype Entry = WalkError(dir: bool) | Symlink | Directory | Special | Regular(status: Status)

  datatype Visit = Visit(path: Path, entry: Entry)

  /** canonicalRoot: where a configured root is. A missing root passes through, verified unless a
      symlink is involved. */
  datatype Resolution = Resolved(root: Path) | MissingRoot(root: Path, verified: bool) | Unresolvable

  datatype Options = Options(
    roots: seq<Path>,
    resolve: Path -> Resolution,
    excluded: Path -> bool,
    text: Path -> bool)

  // ---------------------------------------------------------------------------------------
  // Roots

  function KeptRoots(o: Options, configured: seq<Path>): seq<Path> {
    if configured == [] then []
    else
      var rest := KeptRoots(o, configured[..|configured| - 1]);
      match o.resolve(configured[|configured| - 1])
      case Resolved(root) => rest + [root]
      case MissingRoot(root, _) => rest + [root]
      case Unresolvable => rest
  }

  /** The resolved roots, of the configured ones cleaned, sorted and compacted. */
  function CanonicalOf(o: Options): seq<Path> { KeptRoots(o, Sorted(PathSet(CleanAll(o.roots)))) }

  predicate Verified(r: Resolution) {
    r.Resolved? || (r.MissingRoot? && r.verified)
  }

  predicate AllVerified(o: Options) {
    forall r :: r in CleanAll(o.roots) ==> Verified(o.resolve(r))
  }

  /** The roots a walk covers: resolved, outermost, and not deny-listed. */
  ghost predicate IsRoots(o: Options, roots: seq<Path>) {
    && StrictlySorted(roots) && Antichain(roots)
    && forall r :: r in roots <==> r in Outermost(CleanAll(CanonicalOf(o))) && !o.excluded(r)
  }

  // ---------------------------------------------------------------------------------------
  // One file

  datatype Counts = Counts(discovered: int, same: int, changed: int, dataless: int, unread: int) {
    function Plus(c: Counts): Counts {
      Counts(discovered + c.discovered, same + c.same, changed + c.changed,
             dataless + c.dataless, unread + c.unread)
    }
  }

  const NONE := Counts(0, 0, 0, 0, 0)
  const ONE_DISCOVERED := Counts(1, 0, 0, 0, 0)
  const ONE_SAME := Counts(0, 1, 0, 0, 0)
  const ONE_CHANGED := Counts(1, 0, 1, 0, 0)
  const ONE_DATALESS := Counts(0, 0, 0, 1, 0)
  const ONE_UNREAD := Counts(0, 0, 0, 0, 1)

  /** What is decided about one entry: a row to write or none, and what is counted for it. */
  datatype Action = Action(write: Option<Row>, counts: Counts)

  const NOTHING := Action(None, NONE)

  predicate HasBytes(row: Option<Row>) { row.Some? && row.value.source.Read? }

  predicate StatMatches(row: Option<Row>, info: Info) {
    row.Some? && row.value.size == info.size && row.value.mtime == info.mtime
  }

  function RowOf(source: Source, info: Info): Row { Row(source, info.size, info.mtime) }

  /** noteUnread. */
  function UnreadAction(row: Option<Row>, info: Info, reason: UnreadReason): Action {
    var one := if reason.Dataless? then ONE_DATALESS else ONE_UNREAD;
    if HasBytes(row) && !reason.Dataless? then NOTHING
    else if HasBytes(row) && StatMatches(row, info) then Action(None, one)
    else if row.Some? && row.value.source == Unread(reason) && StatMatches(row, info) then Action(None, one)
    else Action(Some(RowOf(Unread(reason), info)), one)
  }

  /** processFile. */
  function FileAction(row: Option<Row>, info: Info, reading: Reading): Action {
    if HasBytes(row) && StatMatches(row, info) then Action(None, ONE_SAME)
    else if row.Some? && row.value.source == Unread(IoError) && StatMatches(row, info) then Action(None, ONE_UNREAD)
    else match reading
      case ReadGone => NOTHING
      case ReadDenied => UnreadAction(row, info, Denied)
      case ReadFailed => UnreadAction(row, info, IoError)
      case Digest(h) =>
        Action(Some(RowOf(Read(h), info)),
               if HasBytes(row) && row.value.source.hash == h then ONE_SAME
               else if HasBytes(row) then ONE_CHANGED
               else ONE_DISCOVERED)
  }

  /** The walk callback, given the path's catalog row. */
  function ActionOf(o: Options, row: Option<Row>, v: Visit): Action {
    if !v.entry.Regular? || !o.text(v.path) || o.excluded(v.path) then NOTHING
    else match v.entry.status
      case StatGone => NOTHING
      case StatFailed => NOTHING
      case Stated(info, reading) =>
        if info.dataless then UnreadAction(row, info, Dataless) else FileAction(row, info, reading)
  }

  /** What the walk leaves in the coverage as a prefix it cannot vouch for. */
  predicate Unvouched(o: Options, v: Visit) {
    (v.entry.WalkError? && v.entry.dir) || (v.entry.Symlink? && !o.excluded(v.path))
  }

  // ---------------------------------------------------------------------------------------
  // A whole walk

  function Lookup(documents: map<Path, Row>, path: Path): Option<Row> {
    if path in documents then Some(documents[path]) else None
  }

  datatype Write = Write(doc: Document, counts: Counts)

  /** The write an action causes, with what is counted when it commits. */
  function Written(path: Path, a: Action): seq<Write> {
    if a.write.Some? then [Write(Document(path, a.write.value), a.counts)] else []
  }

  /** What an action counts with no write behind it. */
  function Counted(a: Action): Counts {
    if a.write.None? then a.counts else NONE
  }

  function WriteOf(o: Options, before: map<Path, Row>, v: Visit): seq<Write> {
    Written(v.path, ActionOf(o, Lookup(before, v.path), v))
  }

  function DirectOf(o: Options, before: map<Path, Row>, v: Visit): Counts {
    Counted(ActionOf(o, Lookup(before, v.path), v))
  }

  /** The rows a walk writes, in order. */
  function Writes(o: Options, before: map<Path, Row>, visits: seq<Visit>): seq<Write> {
    if visits == [] then []
    else Writes(o, before, visits[..|visits| - 1]) + WriteOf(o, before, visits[|visits| - 1])
  }

  function Direct(o: Options, before: map<Path, Row>, visits: seq<Visit>): Counts {
    if visits == [] then NONE
    else Direct(o, before, visits[..|visits| - 1]).Plus(DirectOf(o, before, visits[|visits| - 1]))
  }

  function Docs(writes: seq<Write>): seq<Document> {
    seq(|writes|, i requires 0 <= i < |writes| => writes[i].doc)
  }

  function Total(writes: seq<Write>): Counts {
    if writes == [] then NONE else Total(writes[..|writes| - 1]).Plus(writes[|writes| - 1].counts)
  }

  function UnvouchedOf(o: Options, visits: seq<Visit>): set<Path> {
    set v | v in visits && Unvouched(o, v) :: v.path
  }

  /** No path is shown twice. */
  ghost predicate DistinctVisits(visits: seq<Visit>) {
    forall i, j :: 0 <= i < j < |visits| ==> visits[i].path != visits[j].path
  }

  /** WalkDir's order: a directory, then everything beneath it, then what follows. */
  ghost predicate Preorder(listing: seq<Visit>) {
    && DistinctVisits(listing)
    && (forall i, j :: 0 <= i < |listing| && 0 <= j < |listing| && StrictlyWithin(listing[j].path, listing[i].path) ==> i < j)
    && (forall i, j, k :: 0 <= i < j < k < |listing| && StrictlyWithin(listing[k].path, listing[i].path) ==>
          StrictlyWithin(listing[j].path, listing[i].path))
  }

  predicate Prunes(o: Options, v: Visit) { v.entry.Directory? && o.excluded(v.path) }

  /** Beneath a directory whose callback answered SkipDir. */
  predicate Skipped(o: Options, listing: seq<Visit>, v: Visit) {
    exists u :: u in listing && Prunes(o, u) && StrictlyWithin(v.path, u.path)
  }

  /** The entries of a listing the walk is shown. */
  function Shown(o: Options, listing: seq<Visit>, n: nat): seq<Visit>
    requires n <= |listing|
  {
    if n == 0 then []
    else Shown(o, listing, n - 1) + (if Skipped(o, listing, listing[n - 1]) then [] else [listing[n - 1]])
  }

  function ShownOf(o: Options, listing: seq<Visit>): seq<Visit> { Shown(o, listing, |listing|) }

  /** Everything the walk of these roots is shown. */
  function AllShown(o: Options, roots: seq<Path>, listings: Path -> seq<Visit>): seq<Visit> {
    if roots == [] then []
    else AllShown(o, roots[..|roots| - 1], listings) + ShownOf(o, listings(roots[|roots| - 1]))
  }

  // ---------------------------------------------------------------------------------------
  // Lemmas

  lemma {:induction false} UpsertAllAppend(t: Tables, a: seq<Document>, b: seq<Document>, now: int)
    ensures UpsertAll(UpsertAll(t, a, now), b, now) == UpsertAll(t, a + b, now)
    decreases |b|
  {
    if b == [] {
      assert a + b == a;
    } else {
      var n := |b| - 1;
      UpsertAllAppend(t, a, b[..n], now);
      assert (a + b)[..|a + b| - 1] == a + b[..n];
    }
  }

  lemma DocsAppend(a: seq<Write>, b: seq<Write>)
    ensures Docs(a + b) == Docs(a) + Docs(b)
  {
  }

  lemma PlusNone(a: Counts)
    ensures a.Plus(NONE) == a
  {
  }

  lemma PlusAssociative(a: Counts, b: Counts, c: Counts)
    ensures a.Plus(b).Plus(c) == a.Plus(b.Plus(c))
  {
  }

  lemma {:induction false} TotalAppend(a: seq<Write>, b: seq<Write>)
    ensures Total(a + b) == Total(a).Plus(Total(b))
    decreases |b|
  {
    hide Counts.Plus;
    if b == [] {
      assert a + b == a;
      PlusNone(Total(a));
    } else {
      var n := |b| - 1;
      TotalAppend(a, b[..n]);
      assert (a + b)[..|a + b| - 1] == a + b[..n];
      PlusAssociative(Total(a), Total(b[..n]), b[n].counts);
    }
  }

  lemma {:induction false} WritesAppend(o: Options, before: map<Path, Row>, a: seq<Visit>, b: seq<Visit>)
    ensures Writes(o, before, a + b) == Writes(o, before, a) + Writes(o, before, b)
    decreases |b|
  {
    hide WriteOf;
    if b == [] {
      assert a + b == a;
    } else {
      var n := |b| - 1;
      WritesAppend(o, before, a, b[..n]);
      assert (a + b)[..|a + b| - 1] == a + b[..n];
    }
  }

  lemma {:induction false} DirectAppend(o: Options, before: map<Path, Row>, a: seq<Visit>, b: seq<Visit>)
    ensures Direct(o, before, a + b) == Direct(o, before, a).Plus(Direct(o, before, b))
    decreases |b|
  {
    hide DirectOf, Counts.Plus;
    if b == [] {
      assert a + b == a;
      PlusNone(Direct(o, before, a));
    } else {
      var n := |b| - 1;
      DirectAppend(o, before, a, b[..n]);
      assert (a + b)[..|a + b| - 1] == a + b[..n];
      PlusAssociative(Direct(o, before, a), Direct(o, before, b[..n]), DirectOf(o, before, b[n]));
    }
  }

  /** Writes only ever name visited paths. */
  lemma {:induction false} WritesAreVisited(o: Options, before: map<Path, Row>, visits: seq<Visit>)
    ensures forall w :: w in Writes(o, before, visits) ==> exists v :: v in visits && v.path == w.doc.path
    decreases |visits|
  {
    hide ActionOf;
    if visits != [] {
      var n := |visits| - 1;
      WritesAreVisited(o, before, visits[..n]);
      assert visits == visits[..n] + [visits[n]];
      forall w | w in Writes(o, before, visits) ensures exists v :: v in visits && v.path == w.doc.path {
        if w in Writes(o, before, visits[..n]) {
          var v :| v in visits[..n] && v.path == w.doc.path;
          assert v in visits;
        } else {
          assert visits[n] in visits;
        }
      }
    }
  }

  /** Rows no document names are untouched. */
  lemma {:induction false} UpsertElsewhere(t: Tables, docs: seq<Document>, now: int, path: Path)
    requires forall d :: d in docs ==> d.path != path
    ensures Lookup(UpsertAll(t, docs, now).documents, path) == Lookup(t.documents, path)
    decreases |docs|
  {
    if docs != [] {
      var n := |docs| - 1;
      assert docs[n] in docs;
      UpsertElsewhere(t, docs[..n], now, path);
    }
  }
}
