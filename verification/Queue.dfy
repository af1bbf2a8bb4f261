/** The work queue (internal/adapters/sqlite/queue.go): which contents a batch claims, and which paths
    stand for a content. */
module Queue {
  import opened Bytes
  import opened Text
  import opened Catalog
  import opened Ranking

  const AGING_SHARE := 4

  // ---------------------------------------------------------------------------------------
  // Claiming

  predicate Due(c: Content, now: int) {
    !c.state.Terminal() && (c.nextRetryAt.None? || c.nextRetryAt.value <= now)
  }

  function DueRows(content: map<Hash, Content>, now: int): set<Hash> {
    set h | h in content && Due(content[h], now)
  }

  /** ORDER BY updated_at DESC, content_hash DESC; the aging slice is its reverse. */
  predicate Newer(content: map<Hash, Content>, a: Hash, b: Hash) {
    a in content && b in content
    && (content[a].updatedAt > content[b].updatedAt
        || (content[a].updatedAt == content[b].updatedAt && Less(b, a)))
  }

  function Newest(content: map<Hash, Content>): (Hash, Hash) -> bool { (a: Hash, b: Hash) => Newer(content, a, b) }

  function Oldest(content: map<Hash, Content>): (Hash, Hash) -> bool { (a: Hash, b: Hash) => Newer(content, b, a) }

  lemma NewerOrders(content: map<Hash, Content>, s: set<Hash>)
    requires s <= content.Keys
    ensures Orders(Newest(content), s) && Orders(Oldest(content), s)
  {
    forall a, b | a in s && b in s
      ensures Newer(content, a, b) ==> !Newer(content, b, a)
      ensures a != b ==> Newer(content, a, b) || Newer(content, b, a)
    {
      LessTotal(a, b);
      if Less(a, b) { LessAsymmetric(a, b); }
      if Less(b, a) { LessAsymmetric(b, a); }
    }
    forall a, b, c | a in s && b in s && c in s && Newer(content, a, b) && Newer(content, b, c)
      ensures Newer(content, a, c)
    {
      if Less(b, a) && Less(c, b) { LessTransitive(c, b, a); }
    }
  }

  function Recent(content: map<Hash, Content>, now: int, n: nat): seq<Hash> {
    NewerOrders(content, DueRows(content, now));
    Rank(DueRows(content, now), Newest(content), n)
  }

  function Aging(content: map<Hash, Content>, now: int, n: nat): seq<Hash> {
    NewerOrders(content, DueRows(content, now));
    Rank(DueRows(content, now), Oldest(content), n)
  }

  /** The two slices with no row twice: what a claim returns. */
  ghost predicate Composes(batch: seq<Hash>, recent: seq<Hash>, aging: seq<Hash>) {
    && Distinct(batch) && |batch| <= |recent| + |aging|
    && forall h :: h in batch <==> h in recent || h in aging
  }

  function NewerThan(content: map<Hash, Content>, batch: seq<Hash>, x: Hash): set<Hash> {
    set y | y in batch && Newer(content, y, x)
  }

  function OlderThan(content: map<Hash, Content>, batch: seq<Hash>, x: Hash): set<Hash> {
    set y | y in batch && Newer(content, x, y)
  }

  /** What a claim promises: only due rows, none twice, at most `limit`; and a due row is passed over
      only when three quarters of the batch is newer than it and one quarter is older, so neither a
      fresh save nor the head of a backlog is. */
  ghost predicate FairClaim(content: map<Hash, Content>, now: int, limit: nat, batch: seq<Hash>) {
    && Distinct(batch) && |batch| <= limit
    && (forall h :: h in batch ==> h in DueRows(content, now))
    && (forall x :: x in DueRows(content, now) && x !in batch ==>
          && |NewerThan(content, batch, x)| >= limit - limit / AGING_SHARE
          && |OlderThan(content, batch, x)| >= limit / AGING_SHARE)
  }

  lemma {:induction false} SliceCounts(r: seq<Hash>, s: set<Hash>)
    requires Distinct(r) && forall x :: x in r ==> x in s
    ensures |r| <= |s|
  {
    if r != [] {
      var front, last := r[..|r| - 1], r[|r| - 1];
      assert r == front + [last];
      forall x | x in front ensures x in s && x != last {
        var j :| 0 <= j < |front| && front[j] == x;
        assert r[j] == x;
      }
      SliceCounts(front, s - {last});
    }
  }

  lemma RecentFacts(content: map<Hash, Content>, now: int, n: nat)
    ensures var r := Recent(content, now, n);
            && Distinct(r) && |r| <= n && (forall h :: h in r ==> h in DueRows(content, now))
            && (forall x :: x in DueRows(content, now) && x !in r ==> |r| == n && forall y :: y in r ==> Newer(content, y, x))
  {
    var due, r := DueRows(content, now), Recent(content, now, n);
    NewerOrders(content, due);
    RankFacts(due, Newest(content), n);
    if |r| < n {
      FullSize(r, due);
    }
  }

  lemma AgingFacts(content: map<Hash, Content>, now: int, n: nat)
    ensures var r := Aging(content, now, n);
            && Distinct(r) && |r| <= n && (forall h :: h in r ==> h in DueRows(content, now))
            && (forall x :: x in DueRows(content, now) && x !in r ==> |r| == n && forall y :: y in r ==> Newer(content, x, y))
  {
    var due, r := DueRows(content, now), Aging(content, now, n);
    NewerOrders(content, due);
    RankFacts(due, Oldest(content), n);
    if |r| < n {
      FullSize(r, due);
    }
  }

  lemma ComposedIsFair(content: map<Hash, Content>, now: int, limit: nat, batch: seq<Hash>)
    requires Composes(batch, Recent(content, now, limit - limit / AGING_SHARE), Aging(content, now, limit / AGING_SHARE))
    ensures FairClaim(content, now, limit, batch)
  {
    hide Recent, Aging, DueRows, Newer, NewerThan, OlderThan;
    var aging := limit / AGING_SHARE;
    var recent, oldest := Recent(content, now, limit - aging), Aging(content, now, aging);
    RecentFacts(content, now, limit - aging);
    AgingFacts(content, now, aging);
    forall x | x in DueRows(content, now) && x !in batch
      ensures |NewerThan(content, batch, x)| >= limit - aging && |OlderThan(content, batch, x)| >= aging
    {
      Passed(content, batch, recent, oldest, x);
    }
  }

  lemma Passed(content: map<Hash, Content>, batch: seq<Hash>, recent: seq<Hash>, oldest: seq<Hash>, x: Hash)
    requires Composes(batch, recent, oldest) && Distinct(recent) && Distinct(oldest)
    requires forall y :: y in recent ==> Newer(content, y, x)
    requires forall y :: y in oldest ==> Newer(content, x, y)
    ensures |NewerThan(content, batch, x)| >= |recent| && |OlderThan(content, batch, x)| >= |oldest|
  {
    hide Newer;
    SliceCounts(recent, NewerThan(content, batch, x));
    SliceCounts(oldest, OlderThan(content, batch, x));
  }

  /** ClaimBatch. */
  method ClaimBatch(content: map<Hash, Content>, now: int, limit: int) returns (batch: seq<Hash>)
    ensures limit <= 0 ==> batch == []
    ensures limit > 0 ==> FairClaim(content, now, limit, batch)
  {
    if limit <= 0 {
      return [];
    }
    hide Recent, Aging, FairClaim;
    var aging := limit / AGING_SHARE;
    var recent := Recent(content, now, limit - aging);
    assert Distinct(recent) by { RecentFacts(content, now, limit - aging); }
    batch := recent;
    var oldest := Aging(content, now, aging);
    for i := 0 to |oldest|
      invariant Composes(batch, recent, oldest[..i])
    {
      assert oldest[..i + 1] == oldest[..i] + [oldest[i]];
      if oldest[i] !in batch {
        batch := batch + [oldest[i]];
      }
    }
    assert oldest[..|oldest|] == oldest;
    ComposedIsFair(content, now, limit, batch);
  }

  /** A claim that returns nothing means nothing is due. */
  lemma EmptyClaimMeansNothingDue(content: map<Hash, Content>, now: int, limit: nat)
    requires limit > 0 && FairClaim(content, now, limit, [])
    ensures DueRows(content, now) == {}
  {
    forall x: Hash ensures NewerThan(content, [], x) == {} {
    }
  }

  // ---------------------------------------------------------------------------------------
  // Which path a content goes by

  function PathsOf(documents: map<Path, Row>, h: Hash): set<Path> {
    set p | p in documents && documents[p].source == Read(h)
  }

  /** ORDER BY d.mtime DESC, d.path ASC. */
  predicate Fresher(documents: map<Path, Row>, p: Path, q: Path) {
    p in documents && q in documents
    && (documents[p].mtime > documents[q].mtime || (documents[p].mtime == documents[q].mtime && Less(p, q)))
  }

  function Freshest(documents: map<Path, Row>): (Path, Path) -> bool { (p: Path, q: Path) => Fresher(documents, p, q) }

  lemma FresherOrders(documents: map<Path, Row>, s: set<Path>)
    requires s <= documents.Keys
    ensures Orders(Freshest(documents), s)
  {
    forall a, b | a in s && b in s
      ensures Fresher(documents, a, b) ==> !Fresher(documents, b, a)
      ensures a != b ==> Fresher(documents, a, b) || Fresher(documents, b, a)
    {
      LessTotal(a, b);
      if Less(a, b) { LessAsymmetric(a, b); }
      if Less(b, a) { LessAsymmetric(b, a); }
    }
    forall a, b, c | a in s && b in s && c in s && Fresher(documents, a, b) && Fresher(documents, b, c)
      ensures Fresher(documents, a, c)
    {
      if Less(a, b) && Less(b, c) { LessTransitive(a, b, c); }
    }
  }

  /** Every path that holds the content, the one it goes by first. */
  function Places(documents: map<Path, Row>, h: Hash): seq<Path> {
    FresherOrders(documents, PathsOf(documents, h));
    RankAll(PathsOf(documents, h), Freshest(documents))
  }

  lemma PlacesFacts(documents: map<Path, Row>, h: Hash)
    ensures var r := Places(documents, h);
            && Descends(r, Freshest(documents)) && Distinct(r) && |r| == |PathsOf(documents, h)|
            && forall p :: p in r <==> p in PathsOf(documents, h)
  {
    FresherOrders(documents, PathsOf(documents, h));
    RankAllFacts(PathsOf(documents, h), Freshest(documents));
  }

  /** GetWork: the row as it is now and every path to read it from; None is ErrContentGone. */
  method GetWork(documents: map<Path, Row>, content: map<Hash, Content>, h: Hash) returns (paths: Option<seq<Path>>)
    ensures paths.None? <==> h !in content || PathsOf(documents, h) == {}
    ensures paths.Some? ==> paths.value == Places(documents, h) && paths.value != []
  {
    PlacesFacts(documents, h);
    if h !in content {
      return None;
    }
    var found := Places(documents, h);
    if |found| == 0 {
      assert forall p :: p in PathsOf(documents, h) ==> p in found;
      return None;
    }
    assert found[0] in found;
    return Some(found);
  }
}
