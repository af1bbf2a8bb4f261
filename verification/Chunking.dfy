/** Chunk as a whole (internal/chunker/chunker.go: Chunk, mergeTiny). */
module Chunking {
  import opened Bytes
  import opened Text
  import opened Utf8
  import opened Blocks
  import opened Sections
  import opened Domain
  import opened Chunker
  import opened ChunkerProofs

  // ---------------------------------------------------------------------------------------
  // All sections

  lemma {:induction false} AllSections(text: Str, sections: seq<Section>, base: int, lo: int, hi: int)
    requires Chain(Flatten(sections), lo, hi) && 0 <= lo <= hi <= |text|
    requires forall b :: b in Flatten(sections) ==> Aligned(text, b)
    requires Chunkable(text, sections)
    ensures var cs := AllCandidates(text, sections, base);
            && AllSound(text, base, lo, hi, cs) && Ladder(cs)
            && (forall b, x :: b in Flatten(sections) && b.start <= x < b.end ==> Covered(cs, x))
  {
    if sections != [] {
      var s, rest := sections[0], sections[1..];
      assert s in sections;
      var all, n := Flatten(sections), |s.blocks|;
      assert all[..n] == s.blocks && all[n..] == Flatten(rest);
      var mid := Last(s.blocks).end;
      assert all[n - 1] == Last(s.blocks) && all[0] == s.blocks[0];
      SectionTheorem(text, s, base);
      assert Chain(Flatten(rest), mid, hi) by { ChainFrom(all, n, lo, hi); }
      AllSections(text, rest, base, mid, hi);
      JoinSections(text, s, rest, base, lo, mid, hi);
    }
  }

  lemma JoinSections(text: Str, s: Section, rest: seq<Section>, base: int, lo: int, mid: int, hi: int)
    requires SectionReady(text, s.blocks) && Chunkable(text, rest)
    requires lo <= s.blocks[0].start && Last(s.blocks).end == mid <= hi
    requires var cs := SectionCandidates(text, s, base);
             && Ladder(cs) && AllSound(text, base, s.blocks[0].start, mid, cs)
             && (forall b, x :: b in s.blocks && b.start <= x < b.end ==> Covered(cs, x))
    requires var cs := AllCandidates(text, rest, base);
             && Ladder(cs) && AllSound(text, base, mid, hi, cs)
             && (forall b, x :: b in Flatten(rest) && b.start <= x < b.end ==> Covered(cs, x))
    ensures var cs := SectionCandidates(text, s, base) + AllCandidates(text, rest, base);
            && AllSound(text, base, lo, hi, cs) && Ladder(cs)
            && (forall b, x :: b in s.blocks + Flatten(rest) && b.start <= x < b.end ==> Covered(cs, x))
  {
    var mine, others := SectionCandidates(text, s, base), AllCandidates(text, rest, base);
    if mine != [] && others != [] {
      assert Last(mine) in mine && others[0] in others;
    }
    LadderConcat(mine, others);
    forall b, x | b in s.blocks + Flatten(rest) && b.start <= x < b.end ensures Covered(mine + others, x) {
      CoveredConcat(mine, others, x);
    }
  }

  // ---------------------------------------------------------------------------------------
  // Merging

  /** The edited list: the neighbours j and j + 1 become one. */
  lemma FoldShape(text: Str, base: int, lo: int, hi: int, cs: seq<Candidate>, i: nat) returns (j: nat, m: Candidate)
    requires i < |cs| && AllSound(text, base, lo, hi, cs) && Ladder(cs)
    requires Tiny(cs[i]) && Neighbour(cs, i, base).Some?
    ensures j + 1 < |cs| && FoldAt(cs, i, Neighbour(cs, i, base).value) == cs[..j] + [m] + cs[j + 2..]
    ensures m.start == cs[j].start && m.end == cs[j + 1].end && m.Mergeable()
    ensures cs[j].Mergeable() && cs[j + 1].Mergeable()
    ensures Sound(text, base, lo, hi, m) && MIN_BYTES <= m.Size() <= MAX_BYTES
  {
    hide CommonPathPrefix, Cuttable, SharedComponents, SectionCeiling;
    var into := Neighbour(cs, i, base).value;
    j := if into < i then into else i;
    m := Merged(cs[into], cs[i]);
    assert Rung(cs, j + 1);
    assert cs[j] in cs && cs[j + 1] in cs;
    var edited := cs[into := m];
    assert edited[..i] + edited[i + 1..] == cs[..j] + [m] + cs[j + 2..];
  }

  lemma FoldLadder(cs: seq<Candidate>, j: nat, m: Candidate)
    requires Ladder(cs) && j + 1 < |cs|
    requires m.start == cs[j].start && m.end == cs[j + 1].end
    ensures Ladder(cs[..j] + [m] + cs[j + 2..])
  {
    var out := cs[..j] + [m] + cs[j + 2..];
    assert Rung(cs, j + 1);
    forall q | 0 < q < |out| ensures Rung(out, q) {
      assert if q <= j then Rung(cs, q) else Rung(cs, q + 1);
    }
  }

  lemma FoldCovers(cs: seq<Candidate>, j: nat, m: Candidate, x: int)
    requires j + 1 < |cs| && Steps(cs[j], cs[j + 1])
    requires m.start == cs[j].start && m.end == cs[j + 1].end && Covered(cs, x)
    ensures Covered(cs[..j] + [m] + cs[j + 2..], x)
  {
    var out := cs[..j] + [m] + cs[j + 2..];
    var k :| 0 <= k < |cs| && cs[k].start <= x < cs[k].end;
    assert out[j] == m;
    if k < j { assert out[k] == cs[k]; }
    else if k > j + 1 { assert out[k - 1] == cs[k]; }
    else { assert m in out; }
  }

  /** What merging keeps: soundness, order, coverage, and every chunk that may not merge; what is
      new is at least MIN_BYTES and at most MAX_BYTES. */
  ghost predicate Keeps(text: Str, base: int, lo: int, hi: int, before: seq<Candidate>, after: seq<Candidate>) {
    && AllSound(text, base, lo, hi, after) && Ladder(after)
    && (forall x :: Covered(before, x) ==> Covered(after, x))
    && (forall c :: c in before && !c.Mergeable() ==> c in after)
    && (forall c :: c in after ==> c in before || (c.Mergeable() && MIN_BYTES <= c.Size() <= MAX_BYTES))
  }

  lemma FoldKeepsImmovable(cs: seq<Candidate>, j: nat, m: Candidate, c: Candidate)
    requires j + 1 < |cs| && cs[j].Mergeable() && cs[j + 1].Mergeable()
    requires c in cs && !c.Mergeable()
    ensures c in cs[..j] + [m] + cs[j + 2..]
  {
    var out := cs[..j] + [m] + cs[j + 2..];
    var k :| 0 <= k < |cs| && cs[k] == c;
    assert if k < j then out[k] == c else out[k - 1] == c;
  }

  lemma FoldKeeps(text: Str, base: int, lo: int, hi: int, cs: seq<Candidate>, i: nat)
    requires i < |cs| && AllSound(text, base, lo, hi, cs) && Ladder(cs)
    requires Tiny(cs[i]) && Neighbour(cs, i, base).Some?
    ensures Keeps(text, base, lo, hi, cs, FoldAt(cs, i, Neighbour(cs, i, base).value))
  {
    hide FoldAt, Neighbour;
    var j, m := FoldShape(text, base, lo, hi, cs, i);
    var out := cs[..j] + [m] + cs[j + 2..];
    FoldLadder(cs, j, m);
    assert Rung(cs, j + 1);
    forall x | Covered(cs, x) ensures Covered(out, x) {
      FoldCovers(cs, j, m, x);
    }
    forall c | c in cs && !c.Mergeable() ensures c in out {
      FoldKeepsImmovable(cs, j, m, c);
    }
  }

  lemma KeepsItself(text: Str, base: int, lo: int, hi: int, cs: seq<Candidate>)
    requires AllSound(text, base, lo, hi, cs) && Ladder(cs)
    ensures Keeps(text, base, lo, hi, cs, cs)
  {
  }

  lemma {:induction false} MergeKeeps(text: Str, base: int, lo: int, hi: int, cs: seq<Candidate>, i: nat)
    requires i <= |cs| && AllSound(text, base, lo, hi, cs) && Ladder(cs)
    ensures Keeps(text, base, lo, hi, cs, MergeFrom(cs, i, base))
    decreases |cs| - i
  {
    if i == |cs| {
      KeepsItself(text, base, lo, hi, cs);
    } else if !Tiny(cs[i]) || Neighbour(cs, i, base).None? {
      MergeKeeps(text, base, lo, hi, cs, i + 1);
    } else {
      var folded := FoldAt(cs, i, Neighbour(cs, i, base).value);
      FoldKeeps(text, base, lo, hi, cs, i);
      MergeKeeps(text, base, lo, hi, folded, i);
    }
  }

  // ---------------------------------------------------------------------------------------
  // The whole output

  /** The blocks that hold text: every scanned block that is not a heading. */
  function ContentBlocks(text: Str): seq<Block> { ContentOf(ScanBlocksSpec(text)) }

  lemma FinalCandidatesKeep(text: Str, tokens: int)
    ensures var base := BaseCeiling(tokens);
            && Chunkable(text, SectionsSpec(ScanBlocksSpec(text)))
            && Keeps(text, base, BodyStart(text), |text|, AllCandidates(text, SectionsSpec(ScanBlocksSpec(text)), base),
                     FinalCandidates(text, tokens))
            && (forall b, x :: b in ContentBlocks(text) && b.start <= x < b.end ==> Covered(FinalCandidates(text, tokens), x))
  {
    var base := BaseCeiling(tokens);
    var blocks := ScanBlocksSpec(text);
    var sections := SectionsSpec(blocks);
    ScannedChunkable(text);
    ScanCoversEveryLine(text);
    ContentMembers(blocks);
    ContentChain(blocks, BodyStart(text), |text|);
    SectionsKeepContent(blocks, [], PREAMBLE);
    assert PREAMBLE.blocks + ContentOf(blocks) == ContentOf(blocks);
    BodyStartInText(text);
    AllSections(text, sections, base, BodyStart(text), |text|);
    MergeKeeps(text, base, BodyStart(text), |text|, AllCandidates(text, sections, base), 0);
  }

  lemma BodyStartInText(text: Str)
    ensures 0 <= BodyStart(text) <= |text|
  {
    LinesTile(text);
  }

  lemma FinalInBounds(text: Str, tokens: int)
    ensures InBounds(text, FinalCandidates(text, tokens))
  {
    FinalCandidatesKeep(text, tokens);
    BodyStartInText(text);
  }

  function ChunkSpec(text: Str, tokens: int): ChunkResult {
    FinalInBounds(text, tokens);
    Numbered(text, FinalCandidates(text, tokens))
  }

  method Chunk(text: Str, inputCeilingTokens: int) returns (res: ChunkResult)
    ensures res == ChunkSpec(text, inputCeilingTokens)
  {
    var base := 0;
    if inputCeilingTokens > 0 {
      base := inputCeilingTokens * BYTES_PER_TOKEN - TEMPLATE_RESERVE_BYTES;
    }
    var blocks := ScanBlocks(text);
    var sections := SectionsOf(blocks);
    ScannedChunkable(text);
    var cands := CollectCandidates(text, sections, base);
    cands := MergeTiny(cands, base);
    FinalInBounds(text, inputCeilingTokens);
    res := Number(text, cands);
  }

  method CollectCandidates(text: Str, sections: seq<Section>, base: int) returns (cands: seq<Candidate>)
    requires Chunkable(text, sections)
    ensures cands == AllCandidates(text, sections, base)
  {
    cands := [];
    for i := 0 to |sections|
      invariant cands + AllCandidates(text, sections[i..], base) == AllCandidates(text, sections, base)
    {
      hide AllCandidates, SectionCandidates;
      var mine := ChunkSection(text, sections[i], base);
      Associative(cands, mine, AllCandidates(text, sections[i + 1..], base));
      cands := cands + mine;
    }
  }

  /** The numbering loop: one chunk per candidate, one warning per ceiling-split piece. */
  method Number(text: Str, cands: seq<Candidate>) returns (res: ChunkResult)
    requires InBounds(text, cands)
    ensures res == Numbered(text, cands)
  {
    var chunks: seq<Chunk> := [];
    var warnings := [];
    for i := 0 to |cands|
      invariant |chunks| == i && forall k :: 0 <= k < i ==> chunks[k] == ChunkOf(text, cands, k)
      invariant warnings + WarningsFrom(cands, i) == WarningsFrom(cands, 0)
    {
      chunks := chunks + [ChunkOf(text, cands, i)];
      if cands[i].split {
        warnings := warnings + [Warning(i, cands[i].path, cands[i].start, cands[i].end)];
      }
    }
    res := ChunkResult(chunks, warnings);
    assert chunks == Numbered(text, cands).chunks;
  }

  predicate InSomeChunk(chunks: seq<Domain.Chunk>, x: int) {
    exists c :: c in chunks && c.byteStart <= x < c.byteEnd
  }

  lemma CoveredAt(cs: seq<Candidate>, x: int) returns (k: nat)
    requires Covered(cs, x)
    ensures k < |cs| && cs[k].start <= x < cs[k].end
  {
    k :| 0 <= k < |cs| && cs[k].start <= x < cs[k].end;
  }

  lemma ChunksAreCandidates(text: Str, tokens: int)
    ensures var cs, chunks := FinalCandidates(text, tokens), ChunkSpec(text, tokens).chunks;
            && |chunks| == |cs|
            && forall k :: 0 <= k < |cs| ==>
                 && chunks[k].ordinal == k && chunks[k].byteStart == cs[k].start && chunks[k].byteEnd == cs[k].end
                 && 0 <= cs[k].start <= cs[k].end <= |text| && chunks[k].text == text[cs[k].start..cs[k].end]
  {
    FinalInBounds(text, tokens);
    hide FinalCandidates;
  }

  /** For every text and ceiling: ordinals count up; each chunk's text is its own byte span, past
      the frontmatter; starts and ends both strictly climb, so no chunk contains another; neighbours
      overlap by at most 256 bytes; and every byte of every non-heading block is in some chunk. */
  lemma ChunksInOrderAndComplete(text: Str, tokens: int)
    ensures var chunks := ChunkSpec(text, tokens).chunks;
            && (forall k :: 0 <= k < |chunks| ==>
                  && chunks[k].ordinal == k
                  && BodyStart(text) <= chunks[k].byteStart < chunks[k].byteEnd <= |text|
                  && chunks[k].text == text[chunks[k].byteStart..chunks[k].byteEnd])
            && (forall j, k :: 0 <= j < k < |chunks| ==>
                  chunks[j].byteStart < chunks[k].byteStart && chunks[j].byteEnd < chunks[k].byteEnd)
            && (forall k :: 0 < k < |chunks| ==> chunks[k - 1].byteEnd - chunks[k].byteStart <= OVERLAP_BYTES)
            && (forall b, x :: b in ContentBlocks(text) && b.start <= x < b.end ==>
                  InSomeChunk(chunks, x))
  {
    hide FinalCandidates, BodyStart, ContentBlocks, AllCandidates;
    var cs := FinalCandidates(text, tokens);
    var chunks := ChunkSpec(text, tokens).chunks;
    FinalCandidatesKeep(text, tokens);
    ChunksAreCandidates(text, tokens);
    hide ChunkSpec, Covered, Chunkable, SectionsSpec;
    forall k | 0 <= k < |chunks|
      ensures && chunks[k].ordinal == k
              && BodyStart(text) <= chunks[k].byteStart < chunks[k].byteEnd <= |text|
              && chunks[k].text == text[chunks[k].byteStart..chunks[k].byteEnd]
    {
      assert cs[k] in cs;
    }
    forall j, k | 0 <= j < k < |chunks|
      ensures chunks[j].byteStart < chunks[k].byteStart && chunks[j].byteEnd < chunks[k].byteEnd
    {
      LadderClimbs(cs, j, k);
    }
    forall k | 0 < k < |chunks| ensures chunks[k - 1].byteEnd - chunks[k].byteStart <= OVERLAP_BYTES {
      assert Rung(cs, k);
    }
    forall b, x | b in ContentBlocks(text) && b.start <= x < b.end
      ensures InSomeChunk(chunks, x)
    {
      var k := CoveredAt(cs, x);
      assert chunks[k] in chunks;
    }
  }

  /** Under a usable ceiling every chunk fits its budget; chunks of valid text are valid text. */
  lemma ChunksFitAndStayValid(text: Str, tokens: int)
    ensures tokens >= MIN_CEILING_TOKENS ==>
              forall c :: c in ChunkSpec(text, tokens).chunks ==>
                |c.text| <= Max(64, BYTES_PER_TOKEN * tokens - TEMPLATE_RESERVE_BYTES - |c.headingPath|)
    ensures Valid(text) ==> forall c :: c in ChunkSpec(text, tokens).chunks ==> Valid(c.text)
  {
    var cs := FinalCandidates(text, tokens);
    FinalCandidatesKeep(text, tokens);
    var chunks := ChunkSpec(text, tokens).chunks;
    forall c | c in chunks
      ensures tokens >= MIN_CEILING_TOKENS ==>
                |c.text| <= Max(64, BYTES_PER_TOKEN * tokens - TEMPLATE_RESERVE_BYTES - |c.headingPath|)
      ensures Valid(text) ==> Valid(c.text)
    {
      var k :| 0 <= k < |chunks| && chunks[k] == c;
      assert Sound(text, BaseCeiling(tokens), BodyStart(text), |text|, cs[k]);
      if Valid(text) {
        BetweenBoundaries(text, cs[k].start, cs[k].end);
      }
    }
  }

  // ---------------------------------------------------------------------------------------
  // Warnings

  /** c lies within b, which is larger than its section's ceiling. */
  predicate PieceOf(b: Block, base: int, c: Candidate) {
    b.start <= c.start < c.end <= b.end && 0 < SectionCeiling(base, c.path) < b.end - b.start
  }

  /** A split candidate is a piece of one block larger than its section's ceiling. */
  ghost predicate PieceOfBlock(blocks: seq<Block>, base: int, c: Candidate) {
    exists b :: b in blocks && PieceOf(b, base, c)
  }

  lemma GroupSplits(text: Str, sec: Section, g: seq<Block>, base: int, c: Candidate)
    requires InText(text, g) && Fitting(g, PackingCap(SectionCeiling(base, sec.path)))
    requires c in GroupCandidates(text, sec, g, SectionCeiling(base, sec.path)) && c.split
    ensures |g| == 1 && PieceOf(g[0], base, c)
  {
    hide Pieces, SplitCandidates;
    var ceiling := SectionCeiling(base, sec.path);
    var start, end := g[0].start, g[|g| - 1].end;
    assert 0 < ceiling < end - start;
    SplitPiece(text, sec, start, end, ceiling, c);
  }

  lemma SplitPiece(text: Str, sec: Section, start: nat, end: nat, ceiling: nat, c: Candidate)
    requires start <= end <= |text| && ceiling >= 64
    requires c in SplitCandidates(sec, Pieces(text, start, end, ceiling))
    ensures start <= c.start < c.end <= end && c.path == sec.path
  {
    PiecesAreSplit(text, start, end, ceiling);
    hide Pieces, CutWell;
    var pieces := Pieces(text, start, end, ceiling);
    var cs := SplitCandidates(sec, pieces);
    var k :| 0 <= k < |cs| && cs[k] == c;
    assert c == SplitCandidate(sec, pieces[k]);
  }

  lemma PackedFitting(text: Str, blocks: seq<Block>, capB: int)
    requires Placed(text, blocks)
    ensures forall g :: g in Pack(blocks, [], Min(TARGET_BYTES, capB), capB) ==>
              InText(text, g) && Fitting(g, capB) && IsRun(g, blocks)
  {
    var target := Min(TARGET_BYTES, capB);
    PackedInText(text, blocks, target, capB);
    assert [] + blocks == blocks;
    PackLadder(blocks, [], target, capB, 0, |text|);
    PackedRuns(blocks, [], target, capB);
  }

  lemma SectionSplits(text: Str, sec: Section, base: int, c: Candidate)
    requires sec.blocks != [] && Placed(text, sec.blocks)
    requires c in SectionCandidates(text, sec, base) && c.split
    ensures PieceOfBlock(sec.blocks, base, c)
  {
    hide PieceOf, GroupCandidates, InText, Pack, Fitting, IsRun;
    var ceiling := SectionCeiling(base, sec.path);
    var capB := PackingCap(ceiling);
    PackedFitting(text, sec.blocks, capB);
    var groups := Pack(sec.blocks, [], Min(TARGET_BYTES, capB), capB);
    GroupsOrigin(text, sec, groups, ceiling, c);
    var g: seq<Block> :| g in groups && InText(text, g) && c in GroupCandidates(text, sec, g, ceiling);
    GroupSplits(text, sec, g, base, c);
    RunExtent(text, g, sec.blocks);
    assert g[0] in sec.blocks;
  }

  lemma {:induction false} AllSplits(text: Str, sections: seq<Section>, base: int, c: Candidate)
    requires Chunkable(text, sections)
    requires c in AllCandidates(text, sections, base) && c.split
    ensures PieceOfBlock(Flatten(sections), base, c)
  {
    var s, rest := sections[0], sections[1..];
    assert s in sections && Flatten(sections) == s.blocks + Flatten(rest);
    if c in SectionCandidates(text, s, base) {
      SectionSplits(text, s, base, c);
      var b :| b in s.blocks && PieceOf(b, base, c);
      assert b in Flatten(sections);
    } else {
      AllSplits(text, rest, base, c);
      var b :| b in Flatten(rest) && PieceOf(b, base, c);
      assert b in Flatten(sections);
    }
  }

  ghost predicate Warns(cands: seq<Candidate>, k: nat, w: Warning) {
    k < |cands| && cands[k].split && w == Warning(k, cands[k].path, cands[k].start, cands[k].end)
  }

  lemma {:induction false} WarningsAreSplits(cands: seq<Candidate>, i: nat, w: Warning)
    requires i <= |cands|
    ensures w in WarningsFrom(cands, i) <==> exists k :: i <= k && Warns(cands, k, w)
    decreases |cands| - i
  {
    if i < |cands| {
      WarningsAreSplits(cands, i + 1, w);
      var mine := if cands[i].split then [Warning(i, cands[i].path, cands[i].start, cands[i].end)] else [];
      assert w in mine <==> Warns(cands, i, w);
      assert WarningsFrom(cands, i) == mine + WarningsFrom(cands, i + 1);
      hide Warns;
      if k :| i <= k && Warns(cands, k, w) {
        assert k == i || i + 1 <= k;
      }
    }
  }

  /** A split chunk of the final list is a piece of one content block of the text. */
  lemma FinalSplits(text: Str, tokens: int, c: Candidate)
    requires c in FinalCandidates(text, tokens) && c.split
    ensures PieceOfBlock(ContentBlocks(text), BaseCeiling(tokens), c)
  {
    hide FinalCandidates, ScanBlocksSpec, SectionsFrom, AllCandidates;
    var base := BaseCeiling(tokens);
    var blocks := ScanBlocksSpec(text);
    var sections := SectionsSpec(blocks);
    FinalCandidatesKeep(text, tokens);
    assert c in AllCandidates(text, sections, base);
    ScanCoversEveryLine(text);
    ContentMembers(blocks);
    SectionsKeepContent(blocks, [], PREAMBLE);
    assert PREAMBLE.blocks + ContentOf(blocks) == ContentOf(blocks);
    AllSplits(text, sections, base, c);
  }

  /** Every warning names a chunk that is a piece of a single content block too large for its
      section's ceiling: grouped blocks are never split, and split pieces are never merged away. */
  lemma OnlySingleBlocksAreSplit(text: Str, tokens: int, w: Warning)
    requires w in ChunkSpec(text, tokens).warnings
    ensures exists b :: b in ContentBlocks(text) && b.start <= w.byteStart < w.byteEnd <= b.end
                        && 0 < SectionCeiling(BaseCeiling(tokens), w.headingPath) < b.end - b.start
    ensures w.ordinal < |ChunkSpec(text, tokens).chunks|
    ensures ChunkSpec(text, tokens).chunks[w.ordinal].byteStart == w.byteStart
    ensures ChunkSpec(text, tokens).chunks[w.ordinal].byteEnd == w.byteEnd
  {
    hide FinalCandidates, ContentBlocks;
    var cs := FinalCandidates(text, tokens);
    WarningsAreSplits(cs, 0, w);
    var k :| 0 <= k && Warns(cs, k, w);
    assert cs[k] in cs;
    FinalSplits(text, tokens, cs[k]);
  }
}
