/** Query assembly (internal/search/service.go, internal/domain/search.go, and the read side of
    internal/adapters/sqlite/vec.go): nearest chunks, fanned out per path, collapsed per content. */
module Assembly {
  import opened Bytes
  import opened Text
  import opened Domain
  import opened Catalog
  import opened Ranking
  import opened Queue

  const DEFAULT_LIMIT := 10
  const OVER_FETCH_FACTOR := 8
  const MAX_KNN_K := 4096
  const MAX_LIMIT := 1000

  // ---------------------------------------------------------------------------------------
  // Nearest chunks

  /** ORDER BY distance, chunk id, over the vectors of one generation. */
  predicate Closer(vecs: map<nat, Vector>, distance: Vector -> real, a: nat, b: nat) {
    a in vecs && b in vecs
    && (distance(vecs[a]) < distance(vecs[b]) || (distance(vecs[a]) == distance(vecs[b]) && a < b))
  }

  function Closest(vecs: map<nat, Vector>, distance: Vector -> real): (nat, nat) -> bool {
    (a: nat, b: nat) => Closer(vecs, distance, a, b)
  }

  lemma CloserOrders(vecs: map<nat, Vector>, distance: Vector -> real)
    ensures Orders(Closest(vecs, distance), vecs.Keys)
  {
  }

  /** The vectors of the current generation. */
  function Vecs(t: Tables): map<nat, Vector> {
    if t.current.Some? && t.current.value in t.gens then t.gens[t.current.value].vecs else map[]
  }

  /** The k nearest chunks. */
  function Knn(t: Tables, distance: Vector -> real, k: nat): seq<nat> {
    CloserOrders(Vecs(t), distance);
    Rank(Vecs(t).Keys, Closest(Vecs(t), distance), k)
  }

  /** One chunk at one path. */
  datatype Hit = Hit(hash: Hash, path: Path, chunk: Chunk, distance: real)

  /** Chunk id at each of these paths. */
  function HitsAt(t: Tables, distance: Vector -> real, id: nat, paths: seq<Path>): seq<Hit>
    requires id in t.chunks && id in Vecs(t)
  {
    seq(|paths|, i requires 0 <= i < |paths| =>
      Hit(t.chunks[id].hash, paths[i], t.chunks[id].chunk, distance(Vecs(t)[id])))
  }

  ghost predicate Live(t: Tables, ids: seq<nat>) {
    forall id :: id in ids ==> id in t.chunks && id in Vecs(t)
  }

  /** Every chunk at every path of its content, the path it goes by first; nothing for a content no
      document references. */
  function Fanned(t: Tables, distance: Vector -> real, ids: seq<nat>): seq<Hit>
    requires Live(t, ids)
  {
    if ids == [] then []
    else
      var id := ids[|ids| - 1];
      Fanned(t, distance, ids[..|ids| - 1]) + HitsAt(t, distance, id, Places(t.documents, t.chunks[id].hash))
  }

  lemma KnnIsLive(t: Tables, distance: Vector -> real, k: nat)
    requires Inv(t)
    ensures Live(t, Knn(t, distance, k)) && Distinct(Knn(t, distance, k))
  {
    CloserOrders(Vecs(t), distance);
    RankFacts(Vecs(t).Keys, Closest(Vecs(t), distance), k);
    hide Rank, Orders;
    assert VectorsLive(t);
  }

  /** SearchVectors: the chunk rows once each, their documents once per hash, fanned out here. */
  method SearchVectors(t: Tables, distance: Vector -> real, k: nat) returns (hits: seq<Hit>)
    requires Inv(t)
    ensures Live(t, Knn(t, distance, k)) && hits == Fanned(t, distance, Knn(t, distance, k))
  {
    hide Inv, Knn, Places, HitsAt;
    KnnIsLive(t, distance, k);
    var ids := Knn(t, distance, k);
    hits := [];
    for i := 0 to |ids|
      invariant hits == Fanned(t, distance, ids[..i])
    {
      var docs := Places(t.documents, t.chunks[ids[i]].hash);
      assert ids[..i + 1][..i] == ids[..i];
      hits := hits + HitsAt(t, distance, ids[i], docs);
    }
    assert ids[..|ids|] == ids;
  }

  // ---------------------------------------------------------------------------------------
  // Collapsing

  /** One content: its best chunk, the path it goes by, and the other paths that hold it. */
  datatype ContentHit = ContentHit(hit: Hit, alsoAt: seq<Path>)

  predicate HasContent(out: seq<ContentHit>, h: Hash) {
    exists i :: 0 <= i < |out| && out[i].hit.hash == h
  }

  function IndexOf(out: seq<ContentHit>, h: Hash): (i: nat)
    requires HasContent(out, h)
    ensures i < |out| && out[i].hit.hash == h && forall j :: 0 <= j < i ==> out[j].hit.hash != h
  {
    if out[0].hit.hash == h then 0 else 1 + IndexOf(out[1..], h)
  }

  /** One row of the loop. */
  function CollapseOne(out: seq<ContentHit>, h: Hit, limit: nat): seq<ContentHit> {
    if HasContent(out, h.hash) then
      var i := IndexOf(out, h.hash);
      if h.chunk.ordinal == out[i].hit.chunk.ordinal then out[i := out[i].(alsoAt := out[i].alsoAt + [h.path])] else out
    else if |out| == limit then out
    else out + [ContentHit(h, [])]
  }

  function CollapseFrom(out: seq<ContentHit>, hits: seq<Hit>, limit: nat): seq<ContentHit> {
    if hits == [] then out
    else CollapseOne(CollapseFrom(out, hits[..|hits| - 1], limit), hits[|hits| - 1], limit)
  }

  /** sort.Strings. */
  function Insert(sorted: seq<Path>, p: Path): seq<Path> {
    if sorted == [] || !Less(sorted[0], p) then [p] + sorted else [sorted[0]] + Insert(sorted[1..], p)
  }

  function SortPaths(paths: seq<Path>): seq<Path> {
    if paths == [] then [] else Insert(SortPaths(paths[..|paths| - 1]), paths[|paths| - 1])
  }

  function SortEach(out: seq<ContentHit>): seq<ContentHit> {
    seq(|out|, i requires 0 <= i < |out| => out[i].(alsoAt := SortPaths(out[i].alsoAt)))
  }

  ghost predicate SeenOk(out: seq<ContentHit>, seen: map<Hash, nat>) {
    && (forall h :: h in seen ==> seen[h] < |out| && out[seen[h]].hit.hash == h)
    && (forall i :: 0 <= i < |out| ==> out[i].hit.hash in seen && seen[out[i].hit.hash] == i)
  }

  lemma SeenNew(out: seq<ContentHit>, seen: map<Hash, nat>, e: ContentHit)
    requires SeenOk(out, seen) && e.hit.hash !in seen
    ensures SeenOk(out + [e], seen[e.hit.hash := |out|])
  {
  }

  /** What the map says of one row is what a scan of the entries would. */
  lemma SeenRow(out: seq<ContentHit>, seen: map<Hash, nat>, h: Hit, limit: nat)
    requires SeenOk(out, seen)
    ensures h.hash in seen ==> seen[h.hash] < |out|
    ensures CollapseOne(out, h, limit) ==
            if h.hash in seen then
              var j := seen[h.hash];
              if h.chunk.ordinal == out[j].hit.chunk.ordinal then out[j := out[j].(alsoAt := out[j].alsoAt + [h.path])] else out
            else if |out| == limit then out
            else out + [ContentHit(h, [])]
  {
    if h.hash in seen {
      assert HasContent(out, h.hash) && IndexOf(out, h.hash) == seen[h.hash];
    }
  }

  lemma SeenSame(out: seq<ContentHit>, seen: map<Hash, nat>, j: nat, alsoAt: seq<Path>)
    requires SeenOk(out, seen) && j < |out|
    ensures SeenOk(out[j := out[j].(alsoAt := alsoAt)], seen)
  {
  }

  /** CollapseBestPerContent. */
  method CollapseBestPerContent(hits: seq<Hit>, limit: int) returns (out: seq<ContentHit>)
    ensures out == if limit <= 0 then [] else SortEach(CollapseFrom([], hits, limit))
  {
    if limit <= 0 || |hits| == 0 {
      return [];
    }
    out := [];
    var seen: map<Hash, nat> := map[];
    for i := 0 to |hits|
      invariant out == CollapseFrom([], hits[..i], limit) && |out| <= limit && SeenOk(out, seen)
    {
      hide SortEach, SeenOk, CollapseOne;
      assert hits[..i + 1][..i] == hits[..i];
      var h := hits[i];
      SeenRow(out, seen, h, limit);
      if h.hash in seen {
        var j := seen[h.hash];
        if h.chunk.ordinal == out[j].hit.chunk.ordinal {
          SeenSame(out, seen, j, out[j].alsoAt + [h.path]);
          out := out[j := out[j].(alsoAt := out[j].alsoAt + [h.path])];
        }
      } else if |out| != limit {
        SeenNew(out, seen, ContentHit(h, []));
        seen := seen[h.hash := |out|];
        out := out + [ContentHit(h, [])];
      }
    }
    assert hits[..|hits|] == hits;
    out := SortEach(out);
  }

  lemma {:induction false} InsertFacts(sorted: seq<Path>, p: Path)
    requires StrictlySorted(sorted) && p !in sorted
    ensures StrictlySorted(Insert(sorted, p)) && |Insert(sorted, p)| == |sorted| + 1
    ensures forall q :: q in Insert(sorted, p) <==> q in sorted || q == p
  {
    if sorted == [] || !Less(sorted[0], p) {
      if sorted != [] {
        assert sorted[0] in sorted;
        LessTotal(sorted[0], p);
      }
      forall j | 0 <= j < |sorted| ensures Less(p, sorted[j]) {
        if j > 0 { LessTransitive(p, sorted[0], sorted[j]); }
      }
    } else {
      var rest := sorted[1..];
      assert sorted == [sorted[0]] + rest;
      InsertFacts(rest, p);
      forall q | q in Insert(rest, p) ensures Less(sorted[0], q) {
        if q != p {
          var j :| 0 <= j < |rest| && rest[j] == q;
          assert sorted[j + 1] == q;
        }
      }
    }
  }

  /** On distinct paths the sort is the strictly ascending list of the same paths. */
  lemma {:induction false} SortFacts(paths: seq<Path>)
    requires Distinct(paths)
    ensures StrictlySorted(SortPaths(paths)) && |SortPaths(paths)| == |paths|
    ensures forall q :: q in SortPaths(paths) <==> q in paths
  {
    if paths != [] {
      var front, last := paths[..|paths| - 1], paths[|paths| - 1];
      assert paths == front + [last];
      SortFacts(front);
      InsertFacts(SortPaths(front), last);
    }
  }

  // ---------------------------------------------------------------------------------------
  // What collapsing a fan-out gives

  predicate SameContent(t: Tables, a: nat, b: nat)
    requires a in t.chunks && b in t.chunks
  {
    t.chunks[a].hash == t.chunks[b].hash
  }

  /** The best chunk of each referenced content, in the order the contents first appear. */
  function Firsts(t: Tables, ids: seq<nat>): (f: seq<nat>)
    requires forall id :: id in ids ==> id in t.chunks
    ensures forall id :: id in f ==> id in ids
  {
    if ids == [] then []
    else
      var rest, id := Firsts(t, ids[..|ids| - 1]), ids[|ids| - 1];
      if Places(t.documents, t.chunks[id].hash) == [] || (exists j :: j in rest && SameContent(t, j, id)) then rest
      else rest + [id]
  }

  function EntryOf(t: Tables, distance: Vector -> real, id: nat): ContentHit
    requires id in t.chunks && id in Vecs(t) && Places(t.documents, t.chunks[id].hash) != []
  {
    var places := Places(t.documents, t.chunks[id].hash);
    ContentHit(HitsAt(t, distance, id, places)[0], places[1..])
  }

  ghost predicate Enterable(t: Tables, ids: seq<nat>) {
    forall id :: id in ids ==> id in t.chunks && id in Vecs(t) && Places(t.documents, t.chunks[id].hash) != []
  }

  function Entries(t: Tables, distance: Vector -> real, ids: seq<nat>): seq<ContentHit>
    requires Enterable(t, ids)
  {
    seq(|ids|, i requires 0 <= i < |ids| => EntryOf(t, distance, ids[i]))
  }

  function Upto<T>(s: seq<T>, n: nat): seq<T> { if |s| <= n then s else s[..n] }

  /** How the list of firsts grows by one chunk. */
  lemma FirstsStep(t: Tables, front: seq<nat>, last: nat)
    requires forall id :: id in front + [last] ==> id in t.chunks
    ensures last in t.chunks && forall id :: id in front ==> id in t.chunks
    ensures var rest, f := Firsts(t, front), Firsts(t, front + [last]);
            var place, dup := Places(t.documents, t.chunks[last].hash) != [], exists j :: j in rest && SameContent(t, j, last);
            f == if place && !dup then rest + [last] else rest
  {
    assert (front + [last])[..|front|] == front;
    forall id | id in front ensures id in t.chunks {
      assert id in front + [last];
    }
    assert last in front + [last];
    hide Places;
  }

  lemma {:induction false} FirstsEnter(t: Tables, ids: seq<nat>)
    requires Live(t, ids)
    ensures Enterable(t, Firsts(t, ids))
    decreases |ids|
  {
    hide Places, SameContent;
    if ids != [] {
      var front, last := ids[..|ids| - 1], ids[|ids| - 1];
      assert ids == front + [last];
      FirstsStep(t, front, last);
      hide Firsts;
      FirstsEnter(t, front);
    }
  }

  ghost predicate Differ(t: Tables, f: seq<nat>)
    requires forall id :: id in f ==> id in t.chunks
  {
    forall i, j :: 0 <= i < j < |f| ==> !SameContent(t, f[i], f[j])
  }

  lemma {:induction false} FirstsDiffer(t: Tables, ids: seq<nat>)
    requires forall id :: id in ids ==> id in t.chunks
    ensures Differ(t, Firsts(t, ids))
    decreases |ids|
  {
    hide Places, SameContent, Differ;
    DifferNone(t);
    if ids != [] {
      var front, last := ids[..|ids| - 1], ids[|ids| - 1];
      assert ids == front + [last];
      FirstsStep(t, front, last);
      hide Firsts;
      FirstsDiffer(t, front);
      if Firsts(t, ids) != Firsts(t, front) {
        DifferNext(t, Firsts(t, front), last);
      }
    }
  }

  lemma DifferNone(t: Tables)
    ensures Differ(t, [])
  {
  }

  lemma DifferNext(t: Tables, f: seq<nat>, last: nat)
    requires forall id :: id in f ==> id in t.chunks
    requires Differ(t, f) && last in t.chunks && forall j :: j in f ==> !SameContent(t, j, last)
    ensures Differ(t, f + [last])
  {
    hide SameContent;
    var g := f + [last];
    forall i, j | 0 <= i < j < |g| ensures !SameContent(t, g[i], g[j]) {
      if j == |f| {
        assert g[i] == f[i] && f[i] in f;
      }
    }
  }

  ghost predicate Represented(t: Tables, f: seq<nat>, id: nat)
    requires id in t.chunks && forall j :: j in f ==> j in t.chunks
  {
    exists j :: j in f && SameContent(t, j, id)
  }

  lemma {:induction false} FirstsCover(t: Tables, ids: seq<nat>, id: nat)
    requires forall j :: j in ids ==> j in t.chunks
    requires id in ids && Places(t.documents, t.chunks[id].hash) != []
    ensures Represented(t, Firsts(t, ids), id)
    decreases |ids|
  {
    hide Places;
    var front, last := ids[..|ids| - 1], ids[|ids| - 1];
    assert ids == front + [last];
    FirstsStep(t, front, last);
    hide Firsts;
    var f, rest := Firsts(t, ids), Firsts(t, front);
    if id in front {
      FirstsCover(t, front, id);
      var j :| j in rest && SameContent(t, j, id);
      assert j in f;
    } else if f == rest + [last] {
      assert last in f;
    }
  }

  lemma {:induction false} CollapseAppend(out: seq<ContentHit>, a: seq<Hit>, b: seq<Hit>, limit: nat)
    ensures CollapseFrom(out, a + b, limit) == CollapseFrom(CollapseFrom(out, a, limit), b, limit)
    decreases |b|
  {
    hide CollapseOne;
    if b == [] {
      assert a + b == a;
    } else {
      assert (a + b)[..|a + b| - 1] == a + b[..|b| - 1];
      CollapseAppend(out, a, b[..|b| - 1], limit);
    }
  }

  /** Rows that change nothing: a worse chunk of a content already there, or a new content when full. */
  predicate Ignored(out: seq<ContentHit>, h: Hit, limit: nat) {
    if HasContent(out, h.hash) then h.chunk.ordinal != out[IndexOf(out, h.hash)].hit.chunk.ordinal else |out| == limit
  }

  lemma {:induction false} IgnoredBlock(out: seq<ContentHit>, hits: seq<Hit>, limit: nat)
    requires forall h :: h in hits ==> Ignored(out, h, limit)
    ensures CollapseFrom(out, hits, limit) == out
    decreases |hits|
  {
    if hits != [] {
      assert hits == hits[..|hits| - 1] + [hits[|hits| - 1]];
      assert hits[|hits| - 1] in hits;
      hide Ignored;
      IgnoredBlock(out, hits[..|hits| - 1], limit);
      IgnoredOne(out, hits[|hits| - 1], limit);
    }
  }

  lemma IgnoredOne(out: seq<ContentHit>, h: Hit, limit: nat)
    requires Ignored(out, h, limit)
    ensures CollapseOne(out, h, limit) == out
  {
  }

  lemma HitsFront(t: Tables, distance: Vector -> real, id: nat, paths: seq<Path>)
    requires id in t.chunks && id in Vecs(t) && paths != []
    ensures var hits := HitsAt(t, distance, id, paths);
            hits[..|hits| - 1] == HitsAt(t, distance, id, paths[..|paths| - 1])
  {
  }

  lemma CollapseLast(out: seq<ContentHit>, front: seq<Hit>, last: Hit, limit: nat)
    ensures CollapseFrom(out, front + [last], limit) == CollapseOne(CollapseFrom(out, front, limit), last, limit)
  {
    assert (front + [last])[..|front|] == front;
  }

  /** One more path of the content just brought in. */
  lemma AnotherPath(out: seq<ContentHit>, e: ContentHit, h: Hit, limit: nat)
    requires !HasContent(out, e.hit.hash) && h.hash == e.hit.hash && h.chunk.ordinal == e.hit.chunk.ordinal
    ensures CollapseOne(out + [e], h, limit) == out + [e.(alsoAt := e.alsoAt + [h.path])]
  {
    IndexOfLast(out, e);
    hide HasContent, IndexOf;
    var e' := e.(alsoAt := e.alsoAt + [h.path]);
    assert (out + [e])[|out| := e'] == out + [e'];
  }

  /** The first chunk seen of a content brings the content in, with every other path behind its first. */
  lemma {:induction false} NewBlock(t: Tables, distance: Vector -> real, out: seq<ContentHit>, id: nat, paths: seq<Path>, limit: nat)
    requires id in t.chunks && id in Vecs(t) && paths != [] && |out| < limit && !HasContent(out, t.chunks[id].hash)
    ensures CollapseFrom(out, HitsAt(t, distance, id, paths), limit)
         == out + [ContentHit(HitsAt(t, distance, id, paths)[0], paths[1..])]
    decreases |paths|
  {
    var hits := HitsAt(t, distance, id, paths);
    var n := |paths| - 1;
    HitsFront(t, distance, id, paths);
    assert hits == hits[..n] + [hits[n]];
    CollapseLast(out, hits[..n], hits[n], limit);
    if n == 0 {
      assert hits[..0] == [] && paths[1..] == [];
      assert CollapseFrom(out, hits[..0], limit) == out;
    } else {
      hide CollapseOne, CollapseFrom, HasContent;
      NewBlock(t, distance, out, id, paths[..n], limit);
      var e := ContentHit(hits[0], paths[..n][1..]);
      assert paths[..n][1..] + [paths[n]] == paths[1..];
      AnotherPath(out, e, hits[n], limit);
    }
  }

  lemma IndexOfLast(out: seq<ContentHit>, e: ContentHit)
    requires !HasContent(out, e.hit.hash)
    ensures HasContent(out + [e], e.hit.hash) && IndexOf(out + [e], e.hit.hash) == |out|
  {
    assert (out + [e])[|out|] == e;
  }

  // ---------------------------------------------------------------------------------------
  // The answer

  /** What a search over these nearest chunks answers: the first `limit` contents, best chunk first. */
  function Answer(t: Tables, distance: Vector -> real, k: nat, limit: nat): seq<ContentHit>
    requires Inv(t)
  {
    KnnIsLive(t, distance, k);
    var ids := Knn(t, distance, k);
    FirstsEnter(t, ids);
    SortEach(Entries(t, distance, Upto(Firsts(t, ids), limit)))
  }

  lemma EntriesHashes(t: Tables, distance: Vector -> real, ids: seq<nat>, h: Hash)
    requires Enterable(t, ids)
    ensures HasContent(Entries(t, distance, ids), h) <==> exists j :: j in ids && t.chunks[j].hash == h
  {
    hide Places;
    var out := Entries(t, distance, ids);
    if j :| j in ids && t.chunks[j].hash == h {
      var i :| 0 <= i < |ids| && ids[i] == j;
      assert out[i].hit.hash == h;
    }
    if i :| 0 <= i < |out| && out[i].hit.hash == h {
      assert ids[i] in ids && t.chunks[ids[i]].hash == h;
    }
  }

  /** The chunk that stands for a content is not this one. */
  lemma EntryIsAnother(t: Tables, distance: Vector -> real, ids: seq<nat>, id: nat)
    requires Enterable(t, ids) && id in t.chunks && id !in ids && OrdinalsUnique(t)
    requires HasContent(Entries(t, distance, ids), t.chunks[id].hash)
    ensures var out := Entries(t, distance, ids);
            out[IndexOf(out, t.chunks[id].hash)].hit.chunk.ordinal != t.chunks[id].chunk.ordinal
  {
    hide Places;
    var out := Entries(t, distance, ids);
    var i := IndexOf(out, t.chunks[id].hash);
    assert ids[i] in ids;
  }

  /** A chunk's block of rows against the contents already collapsed. */
  lemma BlockCollapses(t: Tables, distance: Vector -> real, front: seq<nat>, id: nat, limit: nat)
    requires Live(t, front + [id]) && OrdinalsUnique(t) && id !in front
    ensures Enterable(t, Firsts(t, front)) && Enterable(t, Firsts(t, front + [id]))
    ensures CollapseFrom(Entries(t, distance, Upto(Firsts(t, front), limit)),
                         HitsAt(t, distance, id, Places(t.documents, t.chunks[id].hash)), limit)
         == Entries(t, distance, Upto(Firsts(t, front + [id]), limit))
  {
    hide Firsts, Places, CollapseFrom, HitsAt, OrdinalsUnique;
    assert Live(t, front) by {
      forall x | x in front ensures x in t.chunks && x in Vecs(t) { assert x in front + [id]; }
    }
    FirstsEnter(t, front);
    FirstsEnter(t, front + [id]);
    FirstsStep(t, front, id);
    var rest, f := Firsts(t, front), Firsts(t, front + [id]);
    var shown := Upto(rest, limit);
    var out, paths := Entries(t, distance, shown), Places(t.documents, t.chunks[id].hash);
    EntriesHashes(t, distance, shown, t.chunks[id].hash);
    if paths != [] && |rest| < limit && f == rest + [id] {
      assert !HasContent(out, t.chunks[id].hash);
      NewBlock(t, distance, out, id, paths, limit);
      EntriesAppend(t, distance, rest, id);
    } else {
      assert Upto(f, limit) == shown;
      BlockIgnored(t, distance, rest, id, paths, limit);
    }
  }

  lemma EntriesAppend(t: Tables, distance: Vector -> real, rest: seq<nat>, id: nat)
    requires Enterable(t, rest + [id])
    ensures Enterable(t, rest) && id in t.chunks && id in Vecs(t) && Places(t.documents, t.chunks[id].hash) != []
    ensures Entries(t, distance, rest + [id]) == Entries(t, distance, rest) + [EntryOf(t, distance, id)]
  {
    hide Places;
    forall x | x in rest ensures x in t.chunks && x in Vecs(t) && Places(t.documents, t.chunks[x].hash) != [] {
      assert x in rest + [id];
    }
    assert id in rest + [id];
  }

  lemma BlockIgnored(t: Tables, distance: Vector -> real, rest: seq<nat>, id: nat, paths: seq<Path>, limit: nat)
    requires Enterable(t, rest) && id in t.chunks && id in Vecs(t) && id !in rest && OrdinalsUnique(t)
    requires paths == [] || |rest| >= limit || exists j :: j in rest && SameContent(t, j, id)
    ensures var out := Entries(t, distance, Upto(rest, limit));
            CollapseFrom(out, HitsAt(t, distance, id, paths), limit) == out
  {
    hide Places;
    var shown := Upto(rest, limit);
    var out, hits := Entries(t, distance, shown), HitsAt(t, distance, id, paths);
    assert Enterable(t, shown) && (|rest| < limit ==> shown == rest);
    EntriesHashes(t, distance, shown, t.chunks[id].hash);
    forall h | h in hits ensures Ignored(out, h, limit) {
      if HasContent(out, t.chunks[id].hash) {
        EntryIsAnother(t, distance, shown, id);
      }
    }
    IgnoredBlock(out, hits, limit);
  }

  /** Collapsing the fanned-out rows of distinct chunks gives one entry per referenced content. */
  lemma {:induction false} CollapsedIsFirsts(t: Tables, distance: Vector -> real, ids: seq<nat>, limit: nat)
    requires Live(t, ids) && Distinct(ids) && OrdinalsUnique(t)
    ensures Enterable(t, Firsts(t, ids))
    ensures CollapseFrom([], Fanned(t, distance, ids), limit) == Entries(t, distance, Upto(Firsts(t, ids), limit))
    decreases |ids|
  {
    FirstsEnter(t, ids);
    if ids == [] {
      assert Entries(t, distance, []) == [];
    } else {
      var front, last := ids[..|ids| - 1], ids[|ids| - 1];
      assert ids == front + [last] && last !in front;
      hide Places, HitsAt, CollapseFrom, Entries, Firsts;
      CollapsedIsFirsts(t, distance, front, limit);
      CollapseAppend([], Fanned(t, distance, front), HitsAt(t, distance, last, Places(t.documents, t.chunks[last].hash)), limit);
      BlockCollapses(t, distance, front, last, limit);
    }
  }

  // ---------------------------------------------------------------------------------------
  // The over-fetch

  /** The chunk over-fetch for a document limit. */
  function KnnK(limit: nat): nat {
    if limit * OVER_FETCH_FACTOR <= MAX_KNN_K then limit * OVER_FETCH_FACTOR else MAX_KNN_K
  }

  /** SearchVectors, then CollapseBestPerContent. */
  lemma CollapsedIsAnswer(t: Tables, distance: Vector -> real, k: nat, limit: nat)
    requires Inv(t)
    ensures Live(t, Knn(t, distance, k))
    ensures SortEach(CollapseFrom([], Fanned(t, distance, Knn(t, distance, k)), limit)) == Answer(t, distance, k, limit)
  {
    KnnIsLive(t, distance, k);
    assert OrdinalsUnique(t);
    hide Inv, Knn, Firsts, Fanned, CollapseFrom, Entries, Places;
    CollapsedIsFirsts(t, distance, Knn(t, distance, k), limit);
  }

  lemma {:induction false} FirstsGrow(t: Tables, ids: seq<nat>, more: seq<nat>)
    requires forall id :: id in ids + more ==> id in t.chunks
    ensures forall id :: id in ids ==> id in t.chunks
    ensures Firsts(t, ids) <= Firsts(t, ids + more)
    decreases |more|
  {
    hide Places, SameContent;
    forall id | id in ids ensures id in t.chunks {
      assert id in ids + more;
    }
    if more == [] {
      assert ids + more == ids;
    } else {
      var front, last := more[..|more| - 1], more[|more| - 1];
      assert ids + more == (ids + front) + [last];
      forall id | id in ids + front ensures id in t.chunks {
        assert id in ids + more;
      }
      FirstsGrow(t, ids, front);
      FirstsStep(t, ids + front, last);
    }
  }

  lemma KnnGrows(t: Tables, distance: Vector -> real, k: nat, m: nat)
    requires k <= m
    ensures Knn(t, distance, k) <= Knn(t, distance, m)
  {
    CloserOrders(Vecs(t), distance);
    RankIsPrefix(Vecs(t).Keys, Closest(Vecs(t), distance), k, m);
  }

  lemma FirstsOfPrefix(t: Tables, few: seq<nat>, many: seq<nat>)
    requires few <= many && forall id :: id in many ==> id in t.chunks
    ensures forall id :: id in few ==> id in t.chunks
    ensures Firsts(t, few) <= Firsts(t, many)
  {
    hide Places, SameContent;
    assert many == few + many[|few|..];
    FirstsGrow(t, few, many[|few|..]);
  }

  /** Fewer chunks are enough when they already fill the answer. */
  lemma FullAnswerIsFinal(t: Tables, distance: Vector -> real, k: nat, m: nat, limit: nat)
    requires Inv(t) && k <= m && |Answer(t, distance, k, limit)| == limit
    ensures Answer(t, distance, k, limit) == Answer(t, distance, m, limit)
  {
    hide Inv, Knn, Places, Firsts, Live;
    KnnIsLive(t, distance, k);
    KnnIsLive(t, distance, m);
    KnnGrows(t, distance, k, m);
    var few, many := Knn(t, distance, k), Knn(t, distance, m);
    LiveChunks(t, many);
    FirstsEnter(t, few);
    FirstsEnter(t, many);
    FirstsOfPrefix(t, few, many);
    assert Upto(Firsts(t, few), limit) == Upto(Firsts(t, many), limit);
  }

  lemma LiveChunks(t: Tables, ids: seq<nat>)
    requires Live(t, ids)
    ensures forall id :: id in ids ==> id in t.chunks && id in Vecs(t)
  {
  }

  /** KNN and collapse, over the snapshot the query reads. */
  method Query(t: Tables, distance: Vector -> real, k: nat, limit: int) returns (contents: seq<ContentHit>)
    requires Inv(t) && limit >= 0
    ensures contents == Answer(t, distance, k, limit)
  {
    hide Inv, Answer, Knn, Fanned, CollapseFrom, Live;
    var hits := SearchVectors(t, distance, k);
    contents := CollapseBestPerContent(hits, limit);
    CollapsedIsAnswer(t, distance, k, limit);
    if limit == 0 {
      NoAnswer(t, distance, k);
    }
  }

  lemma NoAnswer(t: Tables, distance: Vector -> real, k: nat)
    requires Inv(t)
    ensures Answer(t, distance, k, 0) == []
  {
    hide Inv, Knn, Firsts, Places;
  }

  /** The over-fetch and its one retry. The two queries read two snapshots of the index. What comes back
      is exactly what ranking everything the ceiling allows would give, on one snapshot or the other; on
      an index that does not change in between, on that index. */
  method OverFetch(first: Tables, second: Tables, distance: Vector -> real, limit: nat)
    returns (contents: seq<ContentHit>, retried: bool)
    requires Inv(first) && Inv(second) && 1 <= limit <= MAX_LIMIT
    ensures contents == Answer(if retried then second else first, distance, MAX_KNN_K, limit)
    ensures first == second ==> contents == Answer(first, distance, MAX_KNN_K, limit)
    ensures |Answer(first, distance, KnnK(limit), limit)| == limit ==> !retried
  {
    hide Inv, Answer;
    var k := if limit * OVER_FETCH_FACTOR <= MAX_KNN_K then limit * OVER_FETCH_FACTOR else MAX_KNN_K;
    retried := false;
    contents := Query(first, distance, k, limit);
    AnswerFits(first, distance, k, limit);
    if |contents| == limit {
      FullAnswerIsFinal(first, distance, k, MAX_KNN_K, limit);
    }
    if |contents| < limit && k < MAX_KNN_K {
      retried := true;
      contents := Query(second, distance, MAX_KNN_K, limit);
    }
  }

  lemma AnswerFits(t: Tables, distance: Vector -> real, k: nat, limit: nat)
    requires Inv(t)
    ensures |Answer(t, distance, k, limit)| <= limit
  {
    hide Inv, Knn, Firsts, Places;
  }

  // ---------------------------------------------------------------------------------------
  // What an answer is

  /** The chunks of h among the nearest k. */
  function Found(t: Tables, distance: Vector -> real, k: nat, h: Hash): set<nat> {
    set id | id in Knn(t, distance, k) && id in t.chunks && t.chunks[id].hash == h
  }

  /** One hit: its path is the content's newest, ties to the least path; with the others it is exactly
      the paths that hold the content; and no nearer chunk of the content was found. */
  ghost predicate GoodHit(t: Tables, distance: Vector -> real, k: nat, e: ContentHit) {
    && e.hit.path in PathsOf(t.documents, e.hit.hash)
    && (forall p :: p in PathsOf(t.documents, e.hit.hash) && p != e.hit.path ==> Fresher(t.documents, e.hit.path, p))
    && StrictlySorted(e.alsoAt) && e.hit.path !in e.alsoAt
    && (forall p :: p in e.alsoAt || p == e.hit.path <==> p in PathsOf(t.documents, e.hit.hash))
    && exists id :: id in Found(t, distance, k, e.hit.hash) && id in Vecs(t)
                    && e.hit.chunk == t.chunks[id].chunk && e.hit.distance == distance(Vecs(t)[id])
  }

  lemma EntryIsGood(t: Tables, distance: Vector -> real, k: nat, id: nat)
    requires Inv(t) && id in Knn(t, distance, k) && id in t.chunks && id in Vecs(t)
    requires Places(t.documents, t.chunks[id].hash) != []
    ensures var e := EntryOf(t, distance, id);
            GoodHit(t, distance, k, e.(alsoAt := SortPaths(e.alsoAt)))
  {
    hide Inv, Knn;
    var h := t.chunks[id].hash;
    var places := Places(t.documents, h);
    PlacesFacts(t.documents, h);
    hide Places;
    assert places == [places[0]] + places[1..];
    var rest := places[1..];
    assert Distinct(rest) && places[0] !in rest;
    SortFacts(rest);
    forall p | p in PathsOf(t.documents, h) && p != places[0] ensures Fresher(t.documents, places[0], p) {
      var j :| 0 <= j < |places| && places[j] == p;
      assert Freshest(t.documents)(places[0], places[j]);
    }
    assert id in Found(t, distance, k, h);
  }

  /** Every hit of an answer is one content, at the path it goes by and every other path that holds it. */
  lemma AnswerHitsAreGood(t: Tables, distance: Vector -> real, k: nat, limit: nat, i: nat)
    requires Inv(t) && i < |Answer(t, distance, k, limit)|
    ensures GoodHit(t, distance, k, Answer(t, distance, k, limit)[i])
  {
    KnnIsLive(t, distance, k);
    var ids := Knn(t, distance, k);
    FirstsEnter(t, ids);
    hide Inv, Knn, Firsts, Places, GoodHit;
    var f := Firsts(t, ids);
    assert f[i] in f && f[i] in ids;
    EntryIsGood(t, distance, k, f[i]);
  }

  lemma {:induction false} FirstsDescend(t: Tables, ids: seq<nat>, ahead: (nat, nat) -> bool)
    requires Descends(ids, ahead) && forall id :: id in ids ==> id in t.chunks
    ensures Descends(Firsts(t, ids), ahead)
    decreases |ids|
  {
    hide Places, SameContent;
    if ids != [] {
      var front, last := ids[..|ids| - 1], ids[|ids| - 1];
      assert ids == front + [last];
      FirstsStep(t, front, last);
      FirstsDescend(t, front, ahead);
      forall x | x in Firsts(t, front) ensures ahead(x, last) {
        var j :| 0 <= j < |front| && front[j] == x;
        assert ids[j] == x && ids[|ids| - 1] == last;
      }
      hide Firsts;
    }
  }

  /** What stands for a chunk's content is that chunk or one ahead of it. */
  lemma {:induction false} FirstsLead(t: Tables, ids: seq<nat>, ahead: (nat, nat) -> bool, id: nat) returns (j: nat)
    requires Descends(ids, ahead) && forall id :: id in ids ==> id in t.chunks
    requires id in ids && Places(t.documents, t.chunks[id].hash) != []
    ensures j in Firsts(t, ids) && j in t.chunks && SameContent(t, j, id) && (j == id || ahead(j, id))
    decreases |ids|
  {
    hide Places;
    var front, last := ids[..|ids| - 1], ids[|ids| - 1];
    assert ids == front + [last];
    FirstsStep(t, front, last);
    var f, rest := Firsts(t, ids), Firsts(t, front);
    if id in front {
      hide Firsts;
      j := FirstsLead(t, front, ahead, id);
    } else if f == rest + [last] {
      j := last;
    } else {
      j :| j in rest && SameContent(t, j, id);
      var i :| 0 <= i < |front| && front[i] == j;
      assert ids[i] == j && ids[|ids| - 1] == id;
    }
  }

  /** The hits of an answer are different contents, nearest first. */
  lemma AnswerIsOrdered(t: Tables, distance: Vector -> real, k: nat, limit: nat, i: nat, j: nat)
    requires Inv(t) && i < j < |Answer(t, distance, k, limit)|
    ensures var a := Answer(t, distance, k, limit);
            a[i].hit.hash != a[j].hit.hash && a[i].hit.distance <= a[j].hit.distance
  {
    hide Inv, Knn, Places, Firsts;
    KnnIsLive(t, distance, k);
    KnnDescends(t, distance, k);
    var ids := Knn(t, distance, k);
    FirstsEnter(t, ids);
    FirstsDiffer(t, ids);
    FirstsDescend(t, ids, Closest(Vecs(t), distance));
    var f := Firsts(t, ids);
    assert f[i] in f && f[j] in f && !SameContent(t, f[i], f[j]);
    assert Closest(Vecs(t), distance)(f[i], f[j]);
  }

  lemma KnnDescends(t: Tables, distance: Vector -> real, k: nat)
    ensures Descends(Knn(t, distance, k), Closest(Vecs(t), distance))
  {
    CloserOrders(Vecs(t), distance);
    RankFacts(Vecs(t).Keys, Closest(Vecs(t), distance), k);
  }

  /** Nothing nearer is missed: a chunk among the nearest k whose content some document references is
      answered for by its content's own hit, at its distance or less, or by `limit` hits each of which is
      at its distance or less. */
  lemma AnswerIsBest(t: Tables, distance: Vector -> real, k: nat, limit: nat, id: nat)
    requires Inv(t) && id in Knn(t, distance, k) && id in t.chunks && id in Vecs(t)
    requires PathsOf(t.documents, t.chunks[id].hash) != {}
    ensures var a := Answer(t, distance, k, limit);
            || (exists i :: 0 <= i < |a| && a[i].hit.hash == t.chunks[id].hash && a[i].hit.distance <= distance(Vecs(t)[id]))
            || (|a| == limit && forall i :: 0 <= i < |a| ==> a[i].hit.distance <= distance(Vecs(t)[id]))
  {
    KnnIsLive(t, distance, k);
    KnnDescends(t, distance, k);
    PlacesFacts(t.documents, t.chunks[id].hash);
    var ids, ahead := Knn(t, distance, k), Closest(Vecs(t), distance);
    hide Inv, Knn, Places;
    var p :| p in PathsOf(t.documents, t.chunks[id].hash);
    FirstsEnter(t, ids);
    FirstsDescend(t, ids, ahead);
    var j := FirstsLead(t, ids, ahead, id);
    hide Firsts;
    LeadAnswers(t, distance, Firsts(t, ids), limit, id, j);
  }

  lemma LeadAnswers(t: Tables, distance: Vector -> real, f: seq<nat>, limit: nat, id: nat, j: nat)
    requires Enterable(t, f) && Descends(f, Closest(Vecs(t), distance)) && j in f
    requires id in t.chunks && id in Vecs(t) && SameContent(t, j, id) && (j == id || Closer(Vecs(t), distance, j, id))
    ensures Enterable(t, Upto(f, limit))
    ensures var a := SortEach(Entries(t, distance, Upto(f, limit)));
            || (exists i :: 0 <= i < |a| && a[i].hit.hash == t.chunks[id].hash && a[i].hit.distance <= distance(Vecs(t)[id]))
            || (|a| == limit && forall i :: 0 <= i < |a| ==> a[i].hit.distance <= distance(Vecs(t)[id]))
  {
    hide Places, SortPaths;
    var r :| 0 <= r < |f| && f[r] == j;
    var a := SortEach(Entries(t, distance, Upto(f, limit)));
    if r < limit {
      assert a[r].hit.hash == t.chunks[id].hash;
    } else {
      forall i | 0 <= i < |a| ensures a[i].hit.distance <= distance(Vecs(t)[id]) {
        assert Closest(Vecs(t), distance)(f[i], f[r]);
      }
    }
  }
}
