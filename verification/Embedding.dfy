/** Prefix templates and the embedder's input guard (internal/domain/embedding.go,
    internal/adapters/openai/embedder.go), and the byte budget end to end. */
module Embedding {
  import opened Bytes
  import opened Text
  import opened Domain
  import Chunker
  import Chunking
  import Filling

  /** {q}, {d} and {t}. */
  const QUERY: Str := [123, 113, 125]
  const PASSAGE: Str := [123, 100, 125]
  const TITLE: Str := [123, 116, 125]

  /** "none", the title of a chunk with no heading path. */
  const NONE: Str := [110, 111, 110, 101]

  datatype Flaw = NoQuery | NoPassage | TemplateTooLong | NegativeCeiling | CeilingTooSmall

  /** EmbeddingSpec.Validate: the first flaw, if any. */
  function Validate(s: Spec): Option<Flaw> {
    if s.queryTemplate != [] && !Contains(s.queryTemplate, QUERY) then Some(NoQuery)
    else if s.passageTemplate != [] && !Contains(s.passageTemplate, PASSAGE) then Some(NoPassage)
    else if |s.passageTemplate| > TEMPLATE_RESERVE_BYTES then Some(TemplateTooLong)
    else if s.ceilingTokens < 0 then Some(NegativeCeiling)
    else if 0 < s.ceilingTokens < MIN_CEILING_TOKENS then Some(CeilingTooSmall)
    else None
  }

  /** strings.ReplaceAll. */
  function ReplaceAll(t: Str, key: Str, value: Str): Str
    requires key != []
    decreases |t|
  {
    if t == [] then []
    else if key <= t then value + ReplaceAll(t[|key|..], key, value)
    else [t[0]] + ReplaceAll(t[1..], key, value)
  }

  /** strings.NewReplacer over {t} and {d}: one pass, so a title that spells a placeholder is not
      substituted again. */
  function ReplaceBoth(t: Str, title: Str, passage: Str): Str
    decreases |t|
  {
    if t == [] then []
    else if TITLE <= t then title + ReplaceBoth(t[3..], title, passage)
    else if PASSAGE <= t then passage + ReplaceBoth(t[3..], title, passage)
    else [t[0]] + ReplaceBoth(t[1..], title, passage)
  }

  /** strings.Count. */
  function Count(t: Str, key: Str): nat
    requires key != []
    decreases |t|
  {
    if t == [] then 0
    else if key <= t then 1 + Count(t[|key|..], key)
    else Count(t[1..], key)
  }

  function TitleOf(headingPath: Str): Str { if headingPath == [] then NONE else headingPath }

  function WithBreadcrumb(text: Str, headingPath: Str): Str {
    if headingPath == [] then text else headingPath + [NL, NL] + text
  }

  function ComposePassage(s: Spec, text: Str, headingPath: Str): Str {
    if Contains(s.passageTemplate, TITLE) then ReplaceBoth(s.passageTemplate, TitleOf(headingPath), text)
    else if s.passageTemplate == [] then WithBreadcrumb(text, headingPath)
    else ReplaceAll(s.passageTemplate, PASSAGE, WithBreadcrumb(text, headingPath))
  }

  function ComposeQuery(s: Spec, query: Str): Str {
    if s.queryTemplate == [] then query else ReplaceAll(s.queryTemplate, QUERY, query)
  }

  /** The embedder's guard: composed input over the ceiling is refused, never truncated. */
  predicate PassesGuard(s: Spec, composed: Str) {
    s.ceilingTokens > 0 ==> |composed| <= s.ceilingTokens * BYTES_PER_TOKEN
  }

  // ---------------------------------------------------------------------------------------
  // Lengths

  lemma {:induction false} ReplacedLength(t: Str, key: Str, value: Str)
    requires key != []
    ensures |ReplaceAll(t, key, value)| == |t| + Count(t, key) * (|value| - |key|)
    decreases |t|
  {
    if t != [] {
      if key <= t {
        ReplacedLength(t[|key|..], key, value);
        OneMore(Count(t[|key|..], key), |value| - |key|);
      } else {
        ReplacedLength(t[1..], key, value);
      }
    }
  }

  lemma OneMore(n: int, k: int)
    ensures (1 + n) * k == n * k + k
  {
  }

  /** A placeholder's three bytes hold no start of the other. */
  lemma CountPast(t: Str, here: Str, other: Str)
    requires (here == TITLE && other == PASSAGE) || (here == PASSAGE && other == TITLE)
    requires here <= t
    ensures Count(t, other) == Count(t[3..], other)
  {
    assert t[0] == here[0] && t[1] == here[1] && t[2] == here[2];
    var u := t[1..];
    assert t[1] != other[1] && u[0] == t[1] && u[1] == t[2];
    assert Count(t, other) == Count(u, other);
    assert Count(u, other) == Count(u[1..], other);
    assert u[1..][0] == t[2];
    assert u[1..][1..] == t[3..];
  }

  lemma {:induction false} ReplacedBothLength(t: Str, title: Str, passage: Str)
    ensures |ReplaceBoth(t, title, passage)|
            == |t| + Count(t, TITLE) * (|title| - 3) + Count(t, PASSAGE) * (|passage| - 3)
    decreases |t|
  {
    if t != [] {
      if TITLE <= t {
        ReplacedBothLength(t[3..], title, passage);
        CountPast(t, TITLE, PASSAGE);
        OneMore(Count(t[3..], TITLE), |title| - 3);
      } else if PASSAGE <= t {
        ReplacedBothLength(t[3..], title, passage);
        CountPast(t, PASSAGE, TITLE);
        OneMore(Count(t[3..], PASSAGE), |passage| - 3);
      } else {
        ReplacedBothLength(t[1..], title, passage);
      }
    }
  }

  /** How long a composed passage is, from lengths and placeholder counts alone. */
  function ComposedLength(s: Spec, textLength: nat, pathLength: nat): int {
    var t := s.passageTemplate;
    var titled := Contains(t, TITLE);
    var title := if pathLength == 0 then |NONE| else pathLength;
    var crumb := if pathLength == 0 then textLength else pathLength + 2 + textLength;
    if titled then |t| + Count(t, TITLE) * (title - 3) + Count(t, PASSAGE) * (textLength - 3)
    else if t == [] then crumb
    else |t| + Count(t, PASSAGE) * (crumb - 3)
  }

  lemma ComposedLengthIsExact(s: Spec, text: Str, headingPath: Str)
    ensures |ComposePassage(s, text, headingPath)| == ComposedLength(s, |text|, |headingPath|)
  {
    var t := s.passageTemplate;
    ReplacedBothLength(t, TitleOf(headingPath), text);
    ReplacedLength(t, PASSAGE, WithBreadcrumb(text, headingPath));
  }

  // ---------------------------------------------------------------------------------------
  // The budget

  /** The largest chunk the chunker makes under this heading path. */
  function ChunkBudget(ceilingTokens: int, pathLength: nat): int {
    Chunker.Max(64, BYTES_PER_TOKEN * ceilingTokens - TEMPLATE_RESERVE_BYTES - pathLength)
  }

  /** The one-placeholder templates the reserve is sized for. */
  predicate OnePassage(s: Spec) {
    && Count(s.passageTemplate, TITLE) <= 1
    && (s.passageTemplate != [] ==> Count(s.passageTemplate, PASSAGE) == 1)
  }

  lemma {:induction false} CountZero(t: Str, key: Str)
    requires key != []
    ensures Count(t, key) == 0 <==> Index(t, key) == -1
    decreases |t|
  {
    if t != [] {
      if key <= t {
        assert MatchesAt(t, key, 0);
      } else {
        CountZero(t[1..], key);
      }
    }
  }

  lemma BudgetArithmetic(s: Spec, textLength: nat, pathLength: nat)
    requires Validate(s).None? && s.ceilingTokens > 0 && OnePassage(s)
    requires textLength <= ChunkBudget(s.ceilingTokens, pathLength)
    requires pathLength <= BYTES_PER_TOKEN * s.ceilingTokens - TEMPLATE_RESERVE_BYTES - 64
    ensures ComposedLength(s, textLength, pathLength) <= s.ceilingTokens * BYTES_PER_TOKEN
  {
    hide Count, Index;
    CountZero(s.passageTemplate, TITLE);
  }

  /** The budget end to end: under a validated spec with one {d} and at most one {t}, every chunk
      the chunker makes of any text passes the embedder's guard, but for heading paths so long
      that the 64-byte floor overrides the breadcrumb's share. */
  lemma EveryChunkPassesTheGuard(s: Spec, text: Str, c: Chunk)
    requires Validate(s).None? && OnePassage(s)
    requires c in Chunking.ChunkSpec(text, s.ceilingTokens).chunks
    requires |c.headingPath| <= BYTES_PER_TOKEN * s.ceilingTokens - TEMPLATE_RESERVE_BYTES - 64
    ensures PassesGuard(s, ComposePassage(s, c.text, c.headingPath))
  {
    if s.ceilingTokens > 0 {
      Chunking.ChunksFitAndStayValid(text, s.ceilingTokens);
      ComposedLengthIsExact(s, c.text, c.headingPath);
      BudgetArithmetic(s, |c.text|, |c.headingPath|);
    }
  }

  /** Every chunk the chunker makes, of any text, under a heading path of this length passes the guard. */
  ghost predicate SafeUnder(s: Spec, pathLength: nat) {
    forall text, c :: c in Chunking.ChunkSpec(text, s.ceilingTokens).chunks && |c.headingPath| == pathLength ==>
      PassesGuard(s, ComposePassage(s, c.text, c.headingPath))
  }

  /** A chunk that fills the budget for this heading path. */
  lemma FullChunk(s: Spec, pathLength: nat) returns (text: Str, c: Chunk)
    requires Validate(s).None? && s.ceilingTokens > 0
    ensures c in Chunking.ChunkSpec(text, s.ceilingTokens).chunks
    ensures |c.headingPath| == pathLength && |c.text| == ChunkBudget(s.ceilingTokens, pathLength)
  {
    var size := ChunkBudget(s.ceilingTokens, pathLength);
    Filling.PageIsOneChunk(pathLength, size, s.ceilingTokens);
    hide Chunking.ChunkSpec;
    text := Filling.Page(pathLength, size);
    c := Chunking.ChunkSpec(text, s.ceilingTokens).chunks[0];
  }

  lemma LongerComposesLonger(s: Spec, n: nat, m: nat, pathLength: nat)
    requires n <= m
    ensures ComposedLength(s, n, pathLength) <= ComposedLength(s, m, pathLength)
  {
    hide Count, Contains;
    var k := Count(s.passageTemplate, PASSAGE);
    ProductGrows(k, n - 3, m - 3);
    ProductGrows(k, pathLength + 2 + n - 3, pathLength + 2 + m - 3);
  }

  lemma ProductGrows(k: nat, n: int, m: int)
    requires n <= m
    ensures k * n <= k * m
  {
  }

  /** Exactly which validated specs are safe, for any number of placeholders and any heading path: every
      chunk the chunker emits under a path of n bytes passes the guard if and only if the composed length
      of a chunk that fills its budget does. */
  lemma GuardIsSafeIffLargestFits(s: Spec, n: nat)
    requires Validate(s).None? && s.ceilingTokens > 0
    ensures SafeUnder(s, n)
       <==> ComposedLength(s, ChunkBudget(s.ceilingTokens, n), n) <= s.ceilingTokens * BYTES_PER_TOKEN
  {
    hide Chunking.ChunkSpec, ComposePassage, ComposedLength;
    var text, full := FullChunk(s, n);
    ComposedLengthIsExact(s, full.text, full.headingPath);
    forall text, c | c in Chunking.ChunkSpec(text, s.ceilingTokens).chunks && |c.headingPath| == n
      ensures |ComposePassage(s, c.text, c.headingPath)| <= ComposedLength(s, ChunkBudget(s.ceilingTokens, n), n)
    {
      Chunking.ChunksFitAndStayValid(text, s.ceilingTokens);
      ComposedLengthIsExact(s, c.text, c.headingPath);
      LongerComposesLonger(s, |c.text|, ChunkBudget(s.ceilingTokens, n), n);
    }
  }

  lemma TwoPassages()
    ensures Count(PASSAGE + PASSAGE, PASSAGE) == 2 && Contains(PASSAGE + PASSAGE, PASSAGE)
  {
    var t := PASSAGE + PASSAGE;
    assert MatchesAt(t, PASSAGE, 0);
    assert t[3..] == PASSAGE && PASSAGE[3..] == [];
  }

  /** Validation does not promise the budget: a template that repeats {d} passes it, and a plain paragraph
      of 3744 letters, which the chunker emits whole, is then refused. */
  lemma RepeatedPassageOverflows()
    ensures var s, text := Spec(NONE, [], PASSAGE + PASSAGE, 1000), Filling.Letters(3744);
            && Validate(s).None?
            && Chunking.ChunkSpec(text, 1000).chunks == [Chunk(0, text, [], 0, 3744)]
            && !PassesGuard(s, ComposePassage(s, text, []))
  {
    hide Count, Index, Chunking.ChunkSpec, ComposePassage, Filling.Letters;
    var s, text := Spec(NONE, [], PASSAGE + PASSAGE, 1000), Filling.Letters(3744);
    TwoPassages();
    ComposedLengthIsExact(s, text, []);
    Filling.PageIsOneChunk(0, 3744, 1000);
    assert Filling.Letters(0) == [] && Filling.Page(0, 3744) == text;
  }

  /** Nor does the 64-byte floor: under any one-passage template, a heading path longer than 4 * ceiling - 64
      bytes leaves no room for the chunk it heads, so some chunk is refused. */
  lemma LongPathOverflows(s: Spec, n: nat)
    requires Validate(s).None? && s.ceilingTokens > 0 && OnePassage(s)
    requires n > BYTES_PER_TOKEN * s.ceilingTokens - 64
    ensures !SafeUnder(s, n)
  {
    hide SafeUnder, ReplaceBoth, Count, Index;
    GuardIsSafeIffLargestFits(s, n);
    CountZero(s.passageTemplate, TITLE);
    ReplacedBothLength(s.passageTemplate, [], []);
    assert ChunkBudget(s.ceilingTokens, n) == 64;
  }
}
