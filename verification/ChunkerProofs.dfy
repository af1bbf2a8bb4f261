/** What chunking guarantees: order, overlap, coverage, size and rune boundaries, section by
    section, through merging, and for the whole output. */
module ChunkerProofs {
  import opened Bytes
  import opened Utf8
  import opened Blocks
  import opened Sections
  import opened Chunker

  // ---------------------------------------------------------------------------------------
  // Vocabulary

  predicate Steps(a: Candidate, b: Candidate) {
    a.start < b.start && a.end < b.end && a.end - b.start <= OVERLAP_BYTES
  }

  predicate Rung(cs: seq<Candidate>, k: int)
    requires 0 < k < |cs|
  {
    Steps(cs[k - 1], cs[k])
  }

  /** Starts and ends both climb, and neighbours overlap by at most OVERLAP_BYTES. */
  predicate Ladder(cs: seq<Candidate>) {
    forall k :: 0 < k < |cs| ==> Rung(cs, k)
  }

  predicate Covered(cs: seq<Candidate>, x: int) {
    exists c :: c in cs && c.start <= x < c.end
  }

  predicate Fits(base: int, c: Candidate) {
    base > 0 ==> c.Size() <= SectionCeiling(base, c.path)
  }

  /** A valid text may be cut here. */
  ghost predicate Cuttable(text: Str, i: int) {
    0 <= i <= |text| && (Valid(text) ==> Boundary(text, i))
  }

  ghost predicate Sound(text: Str, base: int, lo: int, hi: int, c: Candidate) {
    lo <= c.start < c.end <= hi && Fits(base, c) && Cuttable(text, c.start) && Cuttable(text, c.end)
  }

  ghost predicate AllSound(text: Str, base: int, lo: int, hi: int, cs: seq<Candidate>) {
    forall c :: c in cs ==> Sound(text, base, lo, hi, c)
  }

  lemma LadderConcat(a: seq<Candidate>, b: seq<Candidate>)
    requires Ladder(a) && Ladder(b)
    requires a != [] && b != [] ==> Steps(Last(a), b[0])
    ensures Ladder(a + b)
  {
    var c := a + b;
    forall k | 0 < k < |c| ensures Rung(c, k) {
      if k < |a| {
        assert Rung(a, k);
      } else if k > |a| {
        assert Rung(b, k - |a|);
      }
    }
  }

  lemma CoveredConcat(a: seq<Candidate>, b: seq<Candidate>, x: int)
    ensures Covered(a + b, x) <==> Covered(a, x) || Covered(b, x)
  {
    if Covered(a, x) {
      var c :| c in a && c.start <= x < c.end;
      assert c in a + b;
    }
    if Covered(b, x) {
      var c :| c in b && c.start <= x < c.end;
      assert c in a + b;
    }
  }

  lemma LadderClimbs(cs: seq<Candidate>, j: int, k: int)
    requires Ladder(cs) && 0 <= j < k < |cs|
    ensures cs[j].start < cs[k].start && cs[j].end < cs[k].end
    decreases k - j
  {
    if j + 1 < k {
      LadderClimbs(cs, j, k - 1);
    }
    assert Rung(cs, k);
  }

  // ---------------------------------------------------------------------------------------
  // Packing

  /** Only a single block may exceed the cap. */
  predicate Fitting(g: seq<Block>, capB: int) {
    g != [] && (|g| == 1 || g[|g| - 1].end - g[0].start <= capB)
  }

  /** How a packed group follows another: both ends climb, and they overlap only when both hold
      several blocks, by at most OVERLAP_BYTES. */
  predicate Follows(g: seq<Block>, h: seq<Block>) {
    && g != [] && h != []
    && g[0].start < h[0].start && g[|g| - 1].end < h[|h| - 1].end
    && (g[|g| - 1].end <= h[0].start
        || (|g| > 1 && |h| > 1 && g[|g| - 1].end - h[0].start <= OVERLAP_BYTES))
  }

  predicate FollowsAt(groups: seq<seq<Block>>, k: int)
    requires 0 < k < |groups|
  {
    Follows(groups[k - 1], groups[k])
  }

  predicate GroupLadder(groups: seq<seq<Block>>) {
    forall k :: 0 < k < |groups| ==> FollowsAt(groups, k)
  }

  lemma GroupLadderCons(g: seq<Block>, rest: seq<seq<Block>>)
    requires GroupLadder(rest) && (rest != [] ==> Follows(g, rest[0]))
    ensures GroupLadder([g] + rest)
  {
    var all := [g] + rest;
    forall k | 0 < k < |all| ensures FollowsAt(all, k) {
      if k > 1 { assert FollowsAt(rest, k - 1); }
    }
  }

  /** The group that the overlap seed opens follows the one it was taken from. */
  lemma SeedFollows(cur: seq<Block>, b: Block, rest: seq<Block>, capB: int, h: seq<Block>, lo: int, hi: int)
    requires cur != [] && Chain(cur + ([b] + rest), lo, hi)
    requires SeedFor(cur, b, capB) + [b] <= h && Chain(h, lo, hi)
    ensures Follows(cur, h)
  {
    var seed := SeedFor(cur, b, capB);
    var k := SeedIsTail(cur, b, rest, capB);
    var all := cur + ([b] + rest);
    assert all[|cur|] == b && all[0] == cur[0] && all[|cur| - 1] == cur[|cur| - 1];
    assert h[|seed|] == b;
    if seed == [] {
      assert h[0] == b;
    } else {
      assert h[0] == seed[0] == cur[k] == all[k];
      assert cur[|cur| - 1].end - cur[k].start <= OVERLAP_BYTES;
    }
  }

  /** What packing promises of its groups, opened by cur. */
  ghost predicate Packed(groups: seq<seq<Block>>, cur: seq<Block>, capB: int) {
    && (forall g :: g in groups ==> Fitting(g, capB))
    && GroupLadder(groups)
    && (cur != [] ==> groups != [] && cur <= groups[0])
  }

  lemma SeedReady(cur: seq<Block>, b: Block, rest: seq<Block>, capB: int, lo: int, hi: int)
    requires cur != [] && Chain(cur + ([b] + rest), lo, hi)
    ensures Fitting(SeedFor(cur, b, capB) + [b], capB)
    ensures Chain(SeedFor(cur, b, capB) + [b] + rest, lo, hi)
  {
    var k := SeedIsTail(cur, b, rest, capB);
  }

  lemma ClosePacked(cur: seq<Block>, b: Block, rest: seq<Block>, target: int, capB: int, lo: int, hi: int)
    requires cur != [] && Fitting(cur, capB) && Chain(cur + ([b] + rest), lo, hi)
    requires var next := SeedFor(cur, b, capB) + [b];
             Packed(Pack(rest, next, target, capB), next, capB)
    ensures Packed([cur] + Pack(rest, SeedFor(cur, b, capB) + [b], target, capB), cur, capB)
  {
    hide Pack, SeedFor, Fitting, Follows, Chain, GroupLadder;
    var next := SeedFor(cur, b, capB) + [b];
    var tail := Pack(rest, next, target, capB);
    SeedReady(cur, b, rest, capB, lo, hi);
    PackedRuns(rest, next, target, capB);
    assert tail[0] in tail;
    RunChain(tail[0], next + rest, lo, hi);
    SeedFollows(cur, b, rest, capB, tail[0], lo, hi);
    GroupLadderCons(cur, tail);
  }

  lemma {:induction false} PackLadder(blocks: seq<Block>, cur: seq<Block>, target: int, capB: int, lo: int, hi: int)
    requires Chain(cur + blocks, lo, hi) && target <= capB
    requires cur != [] ==> Fitting(cur, capB)
    ensures Packed(Pack(blocks, cur, target, capB), cur, capB)
  {
    if blocks != [] {
      var b, rest := blocks[0], blocks[1..];
      assert blocks == [b] + rest;
      if cur != [] && b.end - cur[0].start > target {
        SeedReady(cur, b, rest, capB, lo, hi);
        PackLadder(rest, SeedFor(cur, b, capB) + [b], target, capB, lo, hi);
        ClosePacked(cur, b, rest, target, capB, lo, hi);
      } else {
        assert cur + [b] + rest == cur + blocks;
        PackLadder(rest, cur + [b], target, capB, lo, hi);
      }
    }
  }

  lemma RunChain(g: seq<Block>, all: seq<Block>, lo: int, hi: int)
    requires Chain(all, lo, hi) && IsRun(g, all)
    ensures Chain(g, lo, hi)
  {
    var i: nat, j: nat :| RunAt(g, all, i, j);
  }

  lemma {:induction false} PackCovers(blocks: seq<Block>, cur: seq<Block>, target: int, capB: int, b: Block)
    requires b in cur || b in blocks
    ensures exists g :: g in Pack(blocks, cur, target, capB) && b in g
  {
    var groups := Pack(blocks, cur, target, capB);
    if blocks == [] {
      assert cur in groups;
    } else {
      var x, rest := blocks[0], blocks[1..];
      assert blocks == [x] + rest;
      if cur != [] && x.end - cur[0].start > target {
        var next := SeedFor(cur, x, capB) + [x];
        if b in cur {
          assert groups[0] == cur;
          assert cur in groups;
        } else {
          PackCovers(rest, next, target, capB, b);
          var g :| g in Pack(rest, next, target, capB) && b in g;
          assert g in groups;
        }
      } else {
        PackCovers(rest, cur + [x], target, capB, b);
      }
    }
  }

  // ---------------------------------------------------------------------------------------
  // Groups to candidates

  /** cs starts where g starts, and its first candidate ends with g unless g is one block. */
  predicate OpensWith(cs: seq<Candidate>, g: seq<Block>) {
    g != [] && cs != [] && cs[0].start == g[0].start && (cs[0].end == g[|g| - 1].end || |g| == 1)
  }

  predicate ClosesWith(cs: seq<Candidate>, g: seq<Block>) {
    && g != [] && cs != [] && Last(cs).end == g[|g| - 1].end
    && (Last(cs).start == g[0].start || (|g| == 1 && Last(cs).start < g[0].end))
  }

  predicate Proper(cs: seq<Candidate>) {
    forall c :: c in cs ==> c.start < c.end
  }

  lemma GroupRungs(text: Str, sec: Section, g: seq<Block>, ceiling: nat, capB: int)
    requires InText(text, g) && g[0].start < g[|g| - 1].end && Fitting(g, capB)
    requires ceiling == 0 || (ceiling >= 64 && capB <= ceiling)
    ensures var cs := GroupCandidates(text, sec, g, ceiling);
            && Proper(cs) && Ladder(cs) && OpensWith(cs, g) && ClosesWith(cs, g)
            && (forall c :: c in cs ==> c.split ==> |g| == 1)
  {
    hide Pieces;
    var start, end := g[0].start, g[|g| - 1].end;
    var cs := GroupCandidates(text, sec, g, ceiling);
    if ceiling > 0 && end - start > ceiling {
      var pieces := Pieces(text, start, end, ceiling);
      PiecesAreSplit(text, start, end, ceiling);
      forall k | 0 < k < |cs| ensures Rung(cs, k) {
        assert Meet(pieces, k);
      }
    }
  }

  lemma GroupCovers(text: Str, sec: Section, g: seq<Block>, ceiling: nat, x: int)
    requires InText(text, g) && g[0].start <= x < g[|g| - 1].end
    requires ceiling == 0 || ceiling >= 64
    ensures Covered(GroupCandidates(text, sec, g, ceiling), x)
  {
    var start, end := g[0].start, g[|g| - 1].end;
    var cs := GroupCandidates(text, sec, g, ceiling);
    if ceiling > 0 && end - start > ceiling {
      var pieces := Pieces(text, start, end, ceiling);
      PiecesAreSplit(text, start, end, ceiling);
      PieceHolds(start, end, ceiling, pieces, x);
      var k :| 0 <= k < |pieces| && pieces[k].start <= x < pieces[k].end;
      assert cs[k] in cs;
    } else {
      assert cs[0] in cs;
    }
  }

  lemma {:induction false} PieceHolds(start: nat, end: nat, limit: nat, pieces: seq<Piece>, x: int)
    requires IsSplit(start, end, limit, pieces) && start <= x < end
    ensures exists k :: 0 <= k < |pieces| && pieces[k].start <= x < pieces[k].end
    decreases |pieces|
  {
    if x >= pieces[0].end {
      var rest := pieces[1..];
      SplitTail(start, end, limit, pieces);
      PieceHolds(pieces[1].start, end, limit, rest, x);
      var k :| 0 <= k < |rest| && rest[k].start <= x < rest[k].end;
      assert pieces[k + 1].start <= x < pieces[k + 1].end;
    }
  }

  lemma SplitTail(start: nat, end: nat, limit: nat, pieces: seq<Piece>)
    requires IsSplit(start, end, limit, pieces) && |pieces| > 1
    ensures pieces[0].end == pieces[1].start
    ensures IsSplit(pieces[1].start, end, limit, pieces[1..])
  {
    var rest := pieces[1..];
    assert Meet(pieces, 1);
    forall k | 0 < k < |rest| ensures Meet(rest, k) {
      assert Meet(pieces, k + 1);
    }
    forall k | 0 <= k < |rest| ensures pieces[1].start <= rest[k].start {
      SplitClimbs(start, end, limit, pieces, k + 1);
    }
  }

  lemma {:induction false} SplitClimbs(start: nat, end: nat, limit: nat, pieces: seq<Piece>, k: nat)
    requires IsSplit(start, end, limit, pieces) && 1 <= k < |pieces|
    ensures pieces[1].start <= pieces[k].start
  {
    if k > 1 {
      SplitClimbs(start, end, limit, pieces, k - 1);
      assert Meet(pieces, k);
    }
  }

  predicate GroupsReady(text: Str, groups: seq<seq<Block>>, capB: int) {
    forall g: seq<Block> :: g in groups ==> InText(text, g) && g[0].start < g[|g| - 1].end && Fitting(g, capB)
  }

  lemma {:induction false} GroupsRungs(text: Str, sec: Section, groups: seq<seq<Block>>, ceiling: nat, capB: int)
    requires GroupsReady(text, groups, capB) && GroupLadder(groups)
    requires ceiling == 0 || (ceiling >= 64 && capB <= ceiling)
    ensures var cs := GroupsCandidates(text, sec, groups, ceiling);
            && Proper(cs) && Ladder(cs)
            && (groups != [] ==> OpensWith(cs, groups[0]))
  {
    if groups != [] {
      var g, rest := groups[0], groups[1..];
      assert g in groups;
      var mine, others := GroupCandidates(text, sec, g, ceiling), GroupsCandidates(text, sec, rest, ceiling);
      GroupRungs(text, sec, g, ceiling, capB);
      forall k | 0 < k < |rest| ensures FollowsAt(rest, k) {
        assert FollowsAt(groups, k + 1);
      }
      GroupsRungs(text, sec, rest, ceiling, capB);
      if rest != [] {
        assert FollowsAt(groups, 1);
        assert others[0] in others;
      }
      LadderConcat(mine, others);
    }
  }

  ghost predicate FromGroup(text: Str, sec: Section, groups: seq<seq<Block>>, ceiling: nat, c: Candidate)
    requires ceiling == 0 || ceiling >= 64
  {
    exists g :: g in groups && InText(text, g) && c in GroupCandidates(text, sec, g, ceiling)
  }

  lemma {:induction false} GroupsOrigin(text: Str, sec: Section, groups: seq<seq<Block>>, ceiling: nat, c: Candidate)
    requires forall g :: g in groups ==> InText(text, g)
    requires ceiling == 0 || ceiling >= 64
    requires c in GroupsCandidates(text, sec, groups, ceiling)
    ensures FromGroup(text, sec, groups, ceiling, c)
  {
    assert groups[0] in groups;
    if c !in GroupCandidates(text, sec, groups[0], ceiling) {
      GroupsOrigin(text, sec, groups[1..], ceiling, c);
      var g :| g in groups[1..] && InText(text, g) && c in GroupCandidates(text, sec, g, ceiling);
      assert g in groups;
    }
  }

  lemma {:induction false} GroupsCover(text: Str, sec: Section, groups: seq<seq<Block>>, ceiling: nat, g: seq<Block>, x: int)
    requires forall h :: h in groups ==> InText(text, h)
    requires ceiling == 0 || ceiling >= 64
    requires g in groups && g != [] && g[0].start <= x < g[|g| - 1].end
    ensures Covered(GroupsCandidates(text, sec, groups, ceiling), x)
  {
    assert groups[0] in groups && groups == [groups[0]] + groups[1..];
    var mine := GroupCandidates(text, sec, groups[0], ceiling);
    var others := GroupsCandidates(text, sec, groups[1..], ceiling);
    if g == groups[0] {
      GroupCovers(text, sec, g, ceiling, x);
    } else {
      GroupsCover(text, sec, groups[1..], ceiling, g, x);
    }
    CoveredConcat(mine, others, x);
  }

  // ---------------------------------------------------------------------------------------
  // Boundaries

  lemma StartCuttable(text: Str, i: int)
    requires 0 <= i <= |text| && (i == 0 || i == |text| || text[i - 1] == NL)
    ensures Cuttable(text, i)
  {
    if Valid(text) {
      if i == 0 {
        assert text[..0] == [] && text[0..] == text;
      } else if i == |text| {
        assert text[..i] == text && text[i..] == [];
      } else {
        CutAfterAscii(text, i);
      }
    }
  }

  lemma AlignedCuttable(text: Str, b: Block)
    requires Aligned(text, b) && b.start <= b.end <= |text|
    ensures Cuttable(text, b.start) && Cuttable(text, b.end)
  {
    StartCuttable(text, b.start);
    StartCuttable(text, b.end);
  }

  /** Every preferred cut is a rune boundary. */
  lemma CutIsBoundary(text: Str, start: nat, limit: nat)
    requires 4 <= limit && start + limit < |text| && Cuttable(text, start)
    ensures Cuttable(text, start + CutAt(text, start, limit))
  {
    hide SoftCut, RuneCut, Valid, DecodeWidth;
    if Valid(text) {
      var soft := SoftCut(text[start..start + limit]);
      var at := start + CutAt(text, start, limit);
      SoftCutFits(text[start..start + limit]);
      if soft > 0 {
        assert text[at - 1] == text[start..start + limit][soft - 1];
        CutAfterAscii(text, at);
      } else if RuneCut(text, start, limit) > 0 {
        CutAtRuneStart(text, at);
      } else {
        AfterFront(text, start);
      }
    }
  }

  lemma AfterFront(text: Str, i: nat)
    requires Boundary(text, i) && i < |text|
    ensures Boundary(text, i + DecodeWidth(text[i..]))
  {
    var tail := text[i..];
    var w := DecodeWidth(tail);
    FrontIsLocal(tail, w);
    assert tail[..w][w..] == [];
    ValidConcat(text[..i], tail[..w]);
    assert text[..i] + tail[..w] == text[..i + w];
    assert tail[w..] == text[i + w..];
  }

  lemma {:induction false} PiecesCuttable(text: Str, start: nat, end: nat, limit: nat)
    requires 4 <= limit && start <= end <= |text| && Cuttable(text, start) && Cuttable(text, end)
    ensures forall p :: p in Pieces(text, start, end, limit) ==> Cuttable(text, p.start) && Cuttable(text, p.end)
    decreases end - start
  {
    hide SoftCut, HardCut, Boundary;
    if start < end && end - start > limit {
      var at := start + CutAt(text, start, limit);
      CutIsBoundary(text, start, limit);
      PiecesCuttable(text, at, end, limit);
    }
  }

  /** hardSplit on valid UTF-8 from a rune boundary: every piece is valid UTF-8. */
  lemma HardSplitKeepsRunes(text: Str, start: nat, end: nat, limit: nat)
    requires 4 <= limit && start <= end <= |text|
    requires Valid(text) && Boundary(text, start) && Boundary(text, end)
    ensures forall p :: p in Pieces(text, start, end, limit) ==> p.start <= p.end <= |text| && Valid(text[p.start..p.end])
  {
    PiecesCuttable(text, start, end, limit);
    PiecesAreSplit(text, start, end, limit);
    forall p | p in Pieces(text, start, end, limit)
      ensures p.start <= p.end <= |text| && Valid(text[p.start..p.end])
    {
      BetweenBoundaries(text, p.start, p.end);
    }
  }

  // ---------------------------------------------------------------------------------------
  // One section

  lemma GroupSound(text: Str, sec: Section, g: seq<Block>, base: int)
    requires InText(text, g) && g[0].start < g[|g| - 1].end
    requires Cuttable(text, g[0].start) && Cuttable(text, g[|g| - 1].end)
    ensures var ceiling := SectionCeiling(base, sec.path);
            AllSound(text, base, g[0].start, g[|g| - 1].end, GroupCandidates(text, sec, g, ceiling))
  {
    var ceiling := SectionCeiling(base, sec.path);
    var start, end := g[0].start, g[|g| - 1].end;
    if ceiling > 0 && end - start > ceiling {
      PiecesAreSplit(text, start, end, ceiling);
      PiecesCuttable(text, start, end, ceiling);
      var pieces := Pieces(text, start, end, ceiling);
      var cs := SplitCandidates(sec, pieces);
      forall c | c in cs ensures Sound(text, base, start, end, c) {
        var k :| 0 <= k < |cs| && c == cs[k];
        assert pieces[k] in pieces;
      }
    }
  }

  ghost predicate SectionReady(text: Str, blocks: seq<Block>) {
    blocks != [] && Placed(text, blocks) && forall b :: b in blocks ==> Aligned(text, b)
  }

  /** One section's candidates: sound, in order, and covering each of its blocks. */
  lemma SectionTheorem(text: Str, sec: Section, base: int)
    requires SectionReady(text, sec.blocks)
    ensures var cs := SectionCandidates(text, sec, base);
            && cs != [] && Ladder(cs)
            && AllSound(text, base, sec.blocks[0].start, Last(sec.blocks).end, cs)
            && (forall b, x :: b in sec.blocks && b.start <= x < b.end ==> Covered(cs, x))
  {
    var blocks := sec.blocks;
    var ceiling := SectionCeiling(base, sec.path);
    var capB := PackingCap(ceiling);
    var target := Min(TARGET_BYTES, capB);
    var cs := SectionCandidates(text, sec, base);
    AlignedCuttable(text, blocks[0]);
    AlignedCuttable(text, Last(blocks));
    if GroupSpan(blocks) <= capB {
      forall b, x | b in blocks && b.start <= x < b.end ensures Covered(cs, x) {
        assert cs[0] in cs;
      }
    } else {
      SectionPacked(text, sec, base);
    }
  }

  lemma SectionPacked(text: Str, sec: Section, base: int)
    requires SectionReady(text, sec.blocks)
    requires GroupSpan(sec.blocks) > PackingCap(SectionCeiling(base, sec.path))
    ensures var cs := SectionCandidates(text, sec, base);
            && cs != [] && Ladder(cs)
            && AllSound(text, base, sec.blocks[0].start, Last(sec.blocks).end, cs)
            && (forall b, x :: b in sec.blocks && b.start <= x < b.end ==> Covered(cs, x))
  {
    var blocks := sec.blocks;
    var ceiling := SectionCeiling(base, sec.path);
    var capB := PackingCap(ceiling);
    var target := Min(TARGET_BYTES, capB);
    var groups := Pack(blocks, [], target, capB);
    PackedInText(text, blocks, target, capB);
    var cs := GroupsCandidates(text, sec, groups, ceiling);
    assert cs == SectionCandidates(text, sec, base);
    hide SectionCandidates, GroupsCandidates, Pack, SectionReady, Ladder, AllSound, IsRun, InText, Placed;
    SectionLadder(text, sec, base, groups);
    GroupsSound(text, sec, base, groups);
    forall b, x | b in blocks && b.start <= x < b.end ensures Covered(cs, x) {
      PackCovers(blocks, [], target, capB, b);
      var g :| g in groups && b in g;
      InsideRun(text, g, b);
      GroupsCover(text, sec, groups, ceiling, g, x);
    }
    Nonempty(text, blocks);
    assert Covered(cs, blocks[0].start);
  }

  lemma Nonempty(text: Str, blocks: seq<Block>)
    requires blocks != [] && Placed(text, blocks)
    ensures blocks[0] in blocks && blocks[0].start < blocks[0].end
  {
  }

  lemma SectionLadder(text: Str, sec: Section, base: int, groups: seq<seq<Block>>)
    requires SectionReady(text, sec.blocks)
    requires var capB := PackingCap(SectionCeiling(base, sec.path));
             groups == Pack(sec.blocks, [], Min(TARGET_BYTES, capB), capB)
    requires forall g :: g in groups ==> InText(text, g)
    ensures Ladder(GroupsCandidates(text, sec, groups, SectionCeiling(base, sec.path)))
  {
    var blocks := sec.blocks;
    var ceiling := SectionCeiling(base, sec.path);
    var capB := PackingCap(ceiling);
    var target := Min(TARGET_BYTES, capB);
    assert [] + blocks == blocks;
    PackLadder(blocks, [], target, capB, 0, |text|);
    PackedRuns(blocks, [], target, capB);
    forall g: seq<Block> | g in groups ensures g[0].start < g[|g| - 1].end {
      RunExtent(text, g, blocks);
    }
    GroupsRungs(text, sec, groups, ceiling, capB);
  }

  lemma GroupsSound(text: Str, sec: Section, base: int, groups: seq<seq<Block>>)
    requires SectionReady(text, sec.blocks)
    requires forall g :: g in groups ==> InText(text, g) && IsRun(g, sec.blocks)
    ensures AllSound(text, base, sec.blocks[0].start, Last(sec.blocks).end,
                     GroupsCandidates(text, sec, groups, SectionCeiling(base, sec.path)))
  {
    var ceiling := SectionCeiling(base, sec.path);
    forall c | c in GroupsCandidates(text, sec, groups, ceiling)
      ensures Sound(text, base, sec.blocks[0].start, Last(sec.blocks).end, c)
    {
      hide Sound, IsRun, InText, Placed;
      GroupsOrigin(text, sec, groups, ceiling, c);
      var g :| g in groups && InText(text, g) && c in GroupCandidates(text, sec, g, ceiling);
      RunSound(text, sec, base, g, c);
    }
  }

  /** What one packed group becomes lies within its section. */
  lemma RunSound(text: Str, sec: Section, base: int, g: seq<Block>, c: Candidate)
    requires SectionReady(text, sec.blocks) && IsRun(g, sec.blocks) && InText(text, g)
    requires c in GroupCandidates(text, sec, g, SectionCeiling(base, sec.path))
    ensures Sound(text, base, sec.blocks[0].start, Last(sec.blocks).end, c)
  {
    hide GroupCandidates, IsRun, Aligned, Cuttable;
    RunExtent(text, g, sec.blocks);
    AlignedCuttable(text, g[0]);
    AlignedCuttable(text, g[|g| - 1]);
    GroupSound(text, sec, g, base);
  }

  lemma RunExtent(text: Str, g: seq<Block>, blocks: seq<Block>)
    requires Placed(text, blocks) && IsRun(g, blocks)
    ensures g != [] && g[0].start < g[|g| - 1].end
    ensures g[0] in blocks && g[|g| - 1] in blocks
    ensures blocks[0].start <= g[0].start && g[|g| - 1].end <= Last(blocks).end
  {
    var i: nat, j: nat :| RunAt(g, blocks, i, j);
    assert g[0] == blocks[i] && g[|g| - 1] == blocks[j - 1];
  }

  lemma InsideRun(text: Str, g: seq<Block>, b: Block)
    requires Placed(text, g) && b in g
    ensures g[0].start <= b.start && b.end <= g[|g| - 1].end
  {
    var k :| 0 <= k < |g| && g[k] == b;
  }
}
