/** Texts whose one chunk is exactly as large as its budget allows: one paragraph of letters, under one
    heading of letters when it has a heading path. They show that the byte budget is reached. */
module Filling {
  import opened Bytes
  import opened Text
  import opened Domain
  import opened Blocks
  import opened Sections
  import opened Chunker
  import Chunking

  const LETTER: byte := 97

  function Letters(n: nat): (s: Str)
    ensures |s| == n && forall i :: 0 <= i < n ==> s[i] == LETTER
  {
    seq(n, i => LETTER)
  }

  /** "# aaa" and its newline. */
  function HeadingLine(n: nat): Str { [HASH, SPACE] + Letters(n) + [NL] }

  function Page(pathLength: nat, size: nat): Str {
    (if pathLength == 0 then [] else HeadingLine(pathLength)) + Letters(size)
  }

  /** Where the paragraph of a page starts. */
  function ParagraphStart(pathLength: nat): nat { if pathLength == 0 then 0 else pathLength + 3 }

  // ---------------------------------------------------------------------------------------
  // Lines

  lemma {:induction false} LastLine(text: Str, start: nat, i: nat)
    requires start <= i <= |text| && start < |text|
    requires forall j :: i <= j < |text| ==> text[j] != NL
    ensures LinesFrom(text, start, i) == [Line(start, |text|)]
    decreases |text| - i
  {
    if i < |text| {
      LastLine(text, start, i + 1);
    }
  }

  lemma {:induction false} FirstLine(text: Str, i: nat, m: nat)
    requires i <= m < |text| && text[m] == NL
    requires forall j :: i <= j < m ==> text[j] != NL
    ensures LinesFrom(text, 0, i) == [Line(0, m + 1)] + LinesFrom(text, m + 1, m + 1)
    decreases m - i
  {
    if i < m {
      FirstLine(text, i + 1, m);
    }
  }

  function PageLines(pathLength: nat, size: nat): seq<Line> {
    var start := ParagraphStart(pathLength);
    (if pathLength == 0 then [] else [Line(0, start)]) + [Line(start, start + size)]
  }

  lemma PageBytes(pathLength: nat, size: nat)
    ensures var text, start := Page(pathLength, size), ParagraphStart(pathLength);
            && |text| == start + size && text[start..] == Letters(size)
            && (forall j :: start <= j < |text| ==> text[j] == LETTER)
            && (pathLength > 0 ==> text[..start - 1] == [HASH, SPACE] + Letters(pathLength) && text[start - 1] == NL
                                   && text[..start] == HeadingLine(pathLength)
                                   && forall j :: 0 <= j < start - 1 ==> text[j] != NL)
  {
    var text, start := Page(pathLength, size), ParagraphStart(pathLength);
    if pathLength > 0 {
      assert text[..start] == HeadingLine(pathLength);
      assert text[..start - 1] == [HASH, SPACE] + Letters(pathLength);
      forall j | 0 <= j < start - 1 ensures text[j] != NL {
        assert text[j] == ([HASH, SPACE] + Letters(pathLength))[j];
      }
    }
  }

  lemma PageHasLines(pathLength: nat, size: nat)
    requires size > 0
    ensures Lines(Page(pathLength, size)) == PageLines(pathLength, size)
  {
    var text, start := Page(pathLength, size), ParagraphStart(pathLength);
    PageBytes(pathLength, size);
    hide LinesFrom, Page;
    LastLine(text, start, start);
    if pathLength > 0 {
      FirstLine(text, 0, start - 1);
    }
  }

  // ---------------------------------------------------------------------------------------
  // What each line is

  /** A line of this kind starts and ends with something visible. */
  lemma Untrimmed(s: Str)
    requires s != [] && s[0] in {HASH, LETTER} && s[|s| - 1] == LETTER
    ensures TrimSpace(s) == s && !Blank(s) && TrimBlanksRight(s) == s
    ensures TrimSuffix(s, NL) == s && TrimSuffix(s, CR) == s
  {
    assert SpaceFront(s) == 0 && SpaceBack(s) == 0;
  }

  lemma NoTrailing(s: Str, c: byte)
    requires s != [] && s[|s| - 1] != c
    ensures TrimRight(s, c) == s
  {
    assert RunBack(s, c) == 0;
  }

  lemma HeadingParses(n: nat)
    requires n > 0
    ensures ParseATX([HASH, SPACE] + Letters(n)) == Some(ATX(1, Letters(n)))
  {
    var s, t := [HASH, SPACE] + Letters(n), Letters(n);
    assert s[1] == SPACE;
    assert Run(s, HASH) == 1;
    assert s[2..] == t;
    Untrimmed(t);
    NoTrailing(t, HASH);
  }

  lemma ParagraphIsPlain(n: nat)
    requires n > 0
    ensures var s := Letters(n); ParseATX(s).None? && FenceOpen(s).None? && !IsPipeLine(s)
  {
    var s := Letters(n);
    assert s[0] == LETTER;
    assert Run(s, HASH) == 0 && Run(s, SPACE) == 0 && Run(s, BACKTICK) == 0 && Run(s, TILDE) == 0;
    assert s[0..] == s;
  }

  lemma TrimmedHeading(n: nat, size: nat)
    requires n > 0 && size > 0
    ensures TrimLine(Page(n, size), Line(0, n + 3)) == [HASH, SPACE] + Letters(n)
  {
    PageBytes(n, size);
    var s := HeadingLine(n);
    assert Page(n, size)[0..n + 3] == s;
    assert s[..|s| - 1] == [HASH, SPACE] + Letters(n);
    Untrimmed([HASH, SPACE] + Letters(n));
  }

  lemma TrimmedParagraph(n: nat, size: nat)
    requires size > 0
    ensures var start := ParagraphStart(n);
            start + size == |Page(n, size)| && TrimLine(Page(n, size), Line(start, start + size)) == Letters(size)
  {
    PageBytes(n, size);
    var start := ParagraphStart(n);
    assert Page(n, size)[start..start + size] == Page(n, size)[start..];
    Untrimmed(Letters(size));
  }

  // ---------------------------------------------------------------------------------------
  // The scan, the section and the chunk

  function ParagraphOf(n: nat, size: nat): Block {
    Block(Paragraph, ParagraphStart(n), ParagraphStart(n) + size, 0, [])
  }

  function PageBlocks(n: nat, size: nat): seq<Block> {
    (if n == 0 then [] else [Block(Heading, 0, n + 3, 1, Letters(n))]) + [ParagraphOf(n, size)]
  }

  /** The paragraph's line, and the end of the text after it. */
  lemma ScanParagraph(n: nat, size: nat, i: nat)
    requires size > 0 && i == if n == 0 then 0 else 1
    ensures WellPlaced(Page(n, size), PageLines(n, size))
    ensures ScanFrom(Page(n, size), PageLines(n, size), i, None) == [ParagraphOf(n, size)]
  {
    hide Page, ParseATX, FenceOpen, TrimLine, IsDelimiterRow;
    PageBytes(n, size);
    var text, lines := Page(n, size), PageLines(n, size);
    TrimmedParagraph(n, size);
    Untrimmed(Letters(size));
    ParagraphIsPlain(size);
    assert lines[i] == Line(ParagraphStart(n), ParagraphStart(n) + size) && |lines| == i + 1;
    assert BlockAt(text, lines, i).None?;
    assert TurnAt(text, lines, i, None) == Turn([], i + 1, Some(i));
    assert ScanFrom(text, lines, i + 1, Some(i)) == FlushPara(lines, Some(i), i + 1);
  }

  lemma ScanHeading(n: nat, size: nat)
    requires n > 0 && size > 0
    ensures WellPlaced(Page(n, size), PageLines(n, size))
    ensures ScanFrom(Page(n, size), PageLines(n, size), 0, None) == PageBlocks(n, size)
  {
    hide Page, ParseATX, FenceOpen, TrimLine, IsDelimiterRow;
    PageBytes(n, size);
    var text, lines := Page(n, size), PageLines(n, size);
    TrimmedHeading(n, size);
    Untrimmed([HASH, SPACE] + Letters(n));
    HeadingParses(n);
    assert lines[0] == Line(0, n + 3);
    assert BlockAt(text, lines, 0) == Some((Block(Heading, 0, n + 3, 1, Letters(n)), 1));
    ScanParagraph(n, size, 1);
  }

  lemma NoFrontmatter(n: nat, size: nat)
    requires size > 0
    ensures WellPlaced(Page(n, size), PageLines(n, size)) && ContentStart(Page(n, size), PageLines(n, size)) == 0
  {
    hide Page, TrimLine;
    PageBytes(n, size);
    TrimmedParagraph(n, size);
    Untrimmed(Letters(size));
    if n > 0 {
      TrimmedHeading(n, size);
      Untrimmed([HASH, SPACE] + Letters(n));
    }
  }

  lemma PageScans(n: nat, size: nat)
    requires size > 0
    ensures ScanBlocksSpec(Page(n, size)) == PageBlocks(n, size)
  {
    hide Page, ScanFrom, ContentStart, Lines;
    PageHasLines(n, size);
    NoFrontmatter(n, size);
    if n == 0 {
      ScanParagraph(n, size, 0);
    } else {
      ScanHeading(n, size);
    }
  }

  function SectionOfPage(n: nat, size: nat): Section { Section(Letters(n), [ParagraphOf(n, size)], n == 0) }

  lemma PageIsOneSection(n: nat, size: nat)
    requires size > 0
    ensures SectionsSpec(ScanBlocksSpec(Page(n, size))) == [SectionOfPage(n, size)]
  {
    hide Page, ScanBlocksSpec;
    PageScans(n, size);
    var p := ParagraphOf(n, size);
    if n == 0 {
      var cur := PREAMBLE.(blocks := [] + [p]);
      assert [p][1..] == [] && [] + [p] == [p] && Letters(0) == [];
      assert SectionsFrom([p], [], PREAMBLE) == SectionsFrom([], [], cur) == Nonempty(cur);
    } else {
      var h := Block(Heading, 0, n + 3, 1, Letters(n));
      var stack := [Frame(1, Letters(n))];
      assert [h, p][1..] == [p] && [p][1..] == [];
      assert Close([], 1) + [Frame(1, Letters(n))] == stack;
      assert Texts(stack) == [Letters(n)];
      var cur := Section(Letters(n), [], false);
      assert PathOf(stack) == Letters(n);
      var full := cur.(blocks := [] + [p]);
      assert [] + [p] == [p] && PageBlocks(n, size) == [h, p];
      assert SectionsFrom([p], stack, cur) == SectionsFrom([], stack, full) == [full];
      assert SectionsFrom([h, p], [], PREAMBLE) == [] + SectionsFrom([p], stack, cur);
    }
  }

  function CandidateOfPage(n: nat, size: nat): Candidate {
    Candidate(ParagraphStart(n), ParagraphStart(n) + size, Letters(n), n == 0, false)
  }

  /** A single block no larger than its section's ceiling is one candidate, whatever the packing cap. */
  lemma PageIsOneCandidate(n: nat, size: nat, base: int)
    requires base > 0 && 0 < size <= SectionCeiling(base, Letters(n))
    ensures Placed(Page(n, size), SectionOfPage(n, size).blocks)
    ensures SectionCandidates(Page(n, size), SectionOfPage(n, size), base) == [CandidateOfPage(n, size)]
  {
    hide Page, SectionCeiling;
    PageBytes(n, size);
    var text, sec, p := Page(n, size), SectionOfPage(n, size), ParagraphOf(n, size);
    var ceiling := SectionCeiling(base, sec.path);
    var capB := PackingCap(ceiling);
    var target := Min(TARGET_BYTES, capB);
    assert [p][1..] == [] && [] + [p] == [p];
    assert Pack([p], [], target, capB) == Pack([], [p], target, capB);
    var groups: seq<seq<Block>> := [[p]];
    assert groups[1..] == [];
    assert GroupsCandidates(text, sec, groups[1..], ceiling) == [];
    assert GroupCandidates(text, sec, [p], ceiling) == [CandidateOfPage(n, size)];
  }

  /** The page is one chunk: its paragraph, whole, under its heading. */
  lemma PageIsOneChunk(n: nat, size: nat, tokens: int)
    requires tokens >= MIN_CEILING_TOKENS && 0 < size <= SectionCeiling(BaseCeiling(tokens), Letters(n))
    ensures Chunking.ChunkSpec(Page(n, size), tokens).chunks
         == [Chunk(0, Letters(size), Letters(n), ParagraphStart(n), ParagraphStart(n) + size)]
  {
    hide Page, SectionCeiling, ScanBlocksSpec, SectionsFrom, SectionCandidates;
    var base := BaseCeiling(tokens);
    PageIsOneSection(n, size);
    PageIsOneCandidate(n, size, base);
    PageBytes(n, size);
    var sec, c := SectionOfPage(n, size), CandidateOfPage(n, size);
    Chunking.FinalInBounds(Page(n, size), tokens);
    assert [sec][1..] == [];
    assert AllCandidates(Page(n, size), [sec], base) == [c] + [] == [c];
    assert MergeFrom([c], 0, base) == MergeFrom([c], 1, base) == [c];
    assert FinalCandidates(Page(n, size), tokens) == [c];
    assert Numbered(Page(n, size), [c]).chunks[0] == Chunk(0, Letters(size), Letters(n), c.start, c.end);
    assert Page(n, size)[ParagraphStart(n)..ParagraphStart(n) + size] == Letters(size);
  }
}
