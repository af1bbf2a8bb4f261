/** Packing sections into chunks (internal/chunker/chunker.go). Each loop is a method proved
    against a function on sequences; ChunkerProofs states what those functions guarantee. */
module Chunker {
  import opened Bytes
  import opened Text
  import opened Utf8
  import opened Blocks
  import opened Sections
  import opened Domain

  const TARGET_BYTES := 2048
  const MIN_BYTES := 256
  const MAX_BYTES := 4096
  const OVERLAP_BYTES := 256

  /** A chunk before merging; split marks a piece of an over-ceiling block. */
  datatype Candidate = Candidate(start: int, end: int, path: Str, preamble: bool, split: bool) {
    function Size(): int { end - start }

    predicate Mergeable() { !preamble && !split }
  }

  function Min(a: int, b: int): int { if a < b then a else b }

  function Max(a: int, b: int): int { if a > b then a else b }

  /** 0 is unlimited. */
  function SectionCeiling(base: int, path: Str): (c: nat)
    ensures base > 0 ==> c >= 64
  {
    if base <= 0 then 0 else Max(base - |path|, 64)
  }

  function PackingCap(ceiling: nat): int {
    if ceiling > 0 then Min(MAX_BYTES, ceiling) else MAX_BYTES
  }

  function Last<T>(s: seq<T>): T
    requires s != []
  {
    s[|s| - 1]
  }

  function GroupSpan(g: seq<Block>): int
    requires g != []
  {
    Last(g).end - g[0].start
  }

  // ---------------------------------------------------------------------------------------
  // Overlap and packing

  /** The seed of the next group: the longest trailing run of g[1..] that fits the overlap. */
  ghost predicate IsOverlapSeed(g: seq<Block>, seed: seq<Block>)
    requires g != []
  {
    exists i :: 1 <= i <= |g| && seed == g[i..]
      && (forall k :: i <= k < |g| ==> Last(g).end - g[k].start <= OVERLAP_BYTES)
      && (i > 1 ==> Last(g).end - g[i - 1].start > OVERLAP_BYTES)
  }

  function SuffixStart(g: seq<Block>, i: nat): (j: nat)
    requires 1 <= i <= |g|
    requires forall k :: i <= k < |g| ==> Last(g).end - g[k].start <= OVERLAP_BYTES
    ensures 1 <= j <= i
    ensures forall k :: j <= k < |g| ==> Last(g).end - g[k].start <= OVERLAP_BYTES
    ensures j > 1 ==> Last(g).end - g[j - 1].start > OVERLAP_BYTES
  {
    if i > 1 && Last(g).end - g[i - 1].start <= OVERLAP_BYTES then SuffixStart(g, i - 1) else i
  }

  function OverlapSeed(g: seq<Block>): (seed: seq<Block>)
    requires g != []
    ensures IsOverlapSeed(g, seed)
  {
    g[SuffixStart(g, |g|)..]
  }

  method OverlapSuffix(g: seq<Block>) returns (seed: seq<Block>)
    requires g != []
    ensures seed == OverlapSeed(g)
  {
    var i := |g|;
    while i > 1 && Last(g).end - g[i - 1].start <= OVERLAP_BYTES
      invariant 1 <= i <= |g|
      invariant forall k :: i <= k < |g| ==> Last(g).end - g[k].start <= OVERLAP_BYTES
      invariant SuffixStart(g, i) == SuffixStart(g, |g|)
    {
      i := i - 1;
    }
    return g[i..];
  }

  /** The open group after b closes one: its overlap seed unless b would then exceed the cap. */
  function SeedFor(g: seq<Block>, b: Block, capB: int): (seed: seq<Block>)
    requires g != []
  {
    var o := OverlapSeed(g);
    if o != [] && b.end - o[0].start > capB then [] else o
  }

  /** Greedy packing of blocks behind the open group cur. */
  function Pack(blocks: seq<Block>, cur: seq<Block>, target: int, capB: int): (groups: seq<seq<Block>>)
    ensures forall g :: g in groups ==> g != []
  {
    if blocks == [] then (if cur == [] then [] else [cur])
    else
      var b := blocks[0];
      if cur != [] && b.end - cur[0].start > target
      then [cur] + Pack(blocks[1..], SeedFor(cur, b, capB) + [b], target, capB)
      else Pack(blocks[1..], cur + [b], target, capB)
  }

  method PackBlocks(blocks: seq<Block>, target: int, capB: int) returns (groups: seq<seq<Block>>)
    ensures groups == Pack(blocks, [], target, capB)
  {
    hide SeedFor;
    groups := [];
    var cur: seq<Block> := [];
    for i := 0 to |blocks|
      invariant groups + Pack(blocks[i..], cur, target, capB) == Pack(blocks, [], target, capB)
    {
      var b := blocks[i];
      assert blocks[i..][0] == b && blocks[i..][1..] == blocks[i + 1..];
      if cur != [] && b.end - cur[0].start > target {
        groups, cur := CloseGroup(groups, cur, b, target, capB, blocks[i + 1..]);
      }
      cur := cur + [b];
    }
    if cur != [] {
      groups := groups + [cur];
    }
  }

  /** A full group is closed, and its overlap seeds the next one. */
  method CloseGroup(groups: seq<seq<Block>>, cur: seq<Block>, b: Block, target: int, capB: int, ghost rest: seq<Block>)
    returns (closed: seq<seq<Block>>, seed: seq<Block>)
    requires cur != []
    ensures closed == groups + [cur] && seed == SeedFor(cur, b, capB)
    ensures groups + ([cur] + Pack(rest, seed + [b], target, capB)) == closed + Pack(rest, seed + [b], target, capB)
  {
    closed := groups + [cur];
    seed := OverlapSuffix(cur);
    if seed != [] && b.end - seed[0].start > capB {
      seed := [];
    }
  }

  // ---------------------------------------------------------------------------------------
  // The ceiling split

  const BLANK_LINE: Str := [NL, NL]

  /** The nearest rune start at or before start + cut, as a distance from start. */
  function RuneCut(text: Str, start: nat, cut: nat): (c: nat)
    requires start + cut < |text|
    ensures c <= cut && (c > 0 ==> RuneStart(text[start + c]))
    ensures forall k :: start + c < k <= start + cut ==> !RuneStart(text[k])
  {
    if cut > 0 && !RuneStart(text[start + cut]) then RuneCut(text, start, cut - 1) else cut
  }

  /** Just past the last sep of a window; 0 when it holds none. */
  function PastLast(w: Str, sep: Str): (cut: nat)
    requires sep != []
    ensures cut > 0 ==> cut <= |w| && w[cut - 1] == sep[|sep| - 1]
  {
    var i := LastIndex(w, sep);
    if i < 0 then 0
    else
      MatchedAt(w, sep, i, |sep| - 1);
      i + |sep|
  }

  /** After the last blank line of a window, else after its last newline, else after its last
      space; 0 when it holds none of them. */
  function SoftCut(w: Str): nat {
    var blank, line := PastLast(w, BLANK_LINE), PastLast(w, [NL]);
    if blank > 0 then blank else if line > 0 then line else PastLast(w, [SPACE])
  }

  lemma SoftCutFits(w: Str)
    ensures SoftCut(w) <= |w|
    ensures SoftCut(w) > 0 ==> w[SoftCut(w) - 1] < 0x80
  {
    hide PastLast, LastIndex;
    assert BLANK_LINE[1] == NL;
  }

  /** Where a window without a soft cut is cut: before its last rune start. */
  function HardCut(text: Str, start: nat, limit: nat): (cut: nat)
    requires 4 <= limit && start + limit < |text|
    ensures 1 <= cut <= limit
  {
    var c := RuneCut(text, start, limit);
    if c > 0 then c else DecodeWidth(text[start..])
  }

  /** Where a piece starting at start is cut. */
  function CutAt(text: Str, start: nat, limit: nat): (cut: nat)
    requires 4 <= limit && start + limit < |text|
    ensures 1 <= cut <= limit
  {
    var w := text[start..start + limit];
    var soft := SoftCut(w);
    SoftCutFits(w);
    if soft > 0 then soft else HardCut(text, start, limit)
  }

  datatype Piece = Piece(start: nat, end: nat)

  predicate Meet(pieces: seq<Piece>, k: int)
    requires 0 < k < |pieces|
  {
    pieces[k - 1].end == pieces[k].start
  }

  /** Consecutive non-empty pieces from start to end, each within the limit. */
  ghost predicate IsSplit(start: nat, end: nat, limit: nat, pieces: seq<Piece>) {
    && (pieces == [] <==> start == end)
    && (pieces != [] ==> pieces[0].start == start && Last(pieces).end == end)
    && (forall k :: 0 < k < |pieces| ==> Meet(pieces, k))
    && (forall k :: 0 <= k < |pieces| ==> start <= pieces[k].start < pieces[k].end <= end)
    && (forall k :: 0 <= k < |pieces| ==> pieces[k].end - pieces[k].start <= limit)
  }

  /** The cut comes just after the last sep of the window. */
  ghost predicate EndsLast(w: Str, sep: Str, cut: nat) {
    |sep| <= cut && MatchesAt(w, sep, cut - |sep|) && forall j :: MatchesAt(w, sep, j) ==> j + |sep| <= cut
  }

  /** The cut comes before the last rune start of the window; if there is none, after one whole rune. */
  ghost predicate BeforeLastRune(text: Str, start: nat, limit: nat, cut: nat)
    requires 1 <= cut <= limit && start + limit < |text|
  {
    if exists k :: start < k <= start + limit && RuneStart(text[k])
    then RuneStart(text[start + cut]) && forall k :: start + cut < k <= start + limit ==> !RuneStart(text[k])
    else cut == DecodeWidth(text[start..])
  }

  /** After the window's last blank line; without one after its last newline; without one after its last
      space; and without any of them before its last rune start. */
  ghost predicate PreferredCut(text: Str, start: nat, limit: nat, cut: nat)
    requires 1 <= cut <= limit && start + limit < |text|
  {
    var w := text[start..start + limit];
    if Contains(w, BLANK_LINE) then EndsLast(w, BLANK_LINE, cut)
    else if Contains(w, [NL]) then EndsLast(w, [NL], cut)
    else if Contains(w, [SPACE]) then EndsLast(w, [SPACE], cut)
    else BeforeLastRune(text, start, limit, cut)
  }

  lemma LastIndexEnds(w: Str, sep: Str)
    requires sep != []
    ensures Contains(w, sep) <==> LastIndex(w, sep) >= 0
    ensures Contains(w, sep) ==> EndsLast(w, sep, LastIndex(w, sep) + |sep|)
  {
    if Contains(w, sep) {
      LastIndexIsLast(w, sep, Index(w, sep));
    }
    forall j | MatchesAt(w, sep, j) ensures j <= LastIndex(w, sep) {
      LastIndexIsLast(w, sep, j);
    }
  }

  lemma CutIsPreferred(text: Str, start: nat, limit: nat)
    requires 4 <= limit && start + limit < |text|
    ensures PreferredCut(text, start, limit, CutAt(text, start, limit))
  {
    hide Contains, EndsLast;
    var w := text[start..start + limit];
    LastIndexEnds(w, BLANK_LINE);
    LastIndexEnds(w, [NL]);
    LastIndexEnds(w, [SPACE]);
  }

  /** Every piece but the one that reaches end is cut at its preferred place. */
  ghost predicate CutWell(text: Str, end: nat, limit: nat, p: Piece)
    requires 4 <= limit && end <= |text|
  {
    p.end != end ==>
      p.start + limit < end && 1 <= p.end - p.start <= limit && PreferredCut(text, p.start, limit, p.end - p.start)
  }

  function Pieces(text: Str, start: nat, end: nat, limit: nat): (pieces: seq<Piece>)
    requires 4 <= limit && start <= end <= |text|
    decreases end - start
  {
    if start == end then []
    else if end - start <= limit then [Piece(start, end)]
    else
      var cut := CutAt(text, start, limit);
      [Piece(start, start + cut)] + Pieces(text, start + cut, end, limit)
  }

  lemma SplitCons(p: Piece, end: nat, limit: nat, rest: seq<Piece>)
    requires p.start < p.end && p.end - p.start <= limit
    requires IsSplit(p.end, end, limit, rest) && p.end < end
    ensures IsSplit(p.start, end, limit, [p] + rest)
  {
    var all := [p] + rest;
    assert Last(all) == Last(rest);
    forall k | 0 < k < |all| ensures Meet(all, k) {
      if k > 1 { assert Meet(rest, k - 1); }
    }
  }

  lemma ShortSplit(text: Str, start: nat, end: nat, limit: nat)
    requires 4 <= limit && start <= end <= |text| && end - start <= limit
    ensures IsSplit(start, end, limit, Pieces(text, start, end, limit))
    ensures forall p :: p in Pieces(text, start, end, limit) ==> CutWell(text, end, limit, p)
  {
    hide CutAt, PreferredCut;
  }

  lemma FirstCut(text: Str, start: nat, end: nat, limit: nat)
    requires 4 <= limit && start + limit < end <= |text|
    ensures CutWell(text, end, limit, Piece(start, start + CutAt(text, start, limit)))
  {
    hide CutAt, PreferredCut;
    CutIsPreferred(text, start, limit);
    assert start + limit < |text|;
  }

  lemma {:induction false} PiecesAreSplit(text: Str, start: nat, end: nat, limit: nat)
    requires 4 <= limit && start <= end <= |text|
    ensures IsSplit(start, end, limit, Pieces(text, start, end, limit))
    ensures forall p :: p in Pieces(text, start, end, limit) ==> CutWell(text, end, limit, p)
    decreases end - start
  {
    hide CutAt, CutWell, IsSplit;
    if end - start <= limit {
      ShortSplit(text, start, end, limit);
    } else {
      var p := Piece(start, start + CutAt(text, start, limit));
      FirstCut(text, start, end, limit);
      PiecesAreSplit(text, p.end, end, limit);
      SplitCons(p, end, limit, Pieces(text, p.end, end, limit));
    }
  }

  /** hardSplit; sectionCeiling never answers a ceiling under 64, so every caller's limit is at
      least 4. */
  method HardSplit(text: Str, start: nat, end: nat, limit: nat) returns (out: seq<Piece>)
    requires 4 <= limit && start <= end <= |text|
    ensures out == Pieces(text, start, end, limit)
  {
    hide Pieces, CutAt;
    PiecesEnd(text, start, end, limit);
    out := [];
    var at := start;
    while at < end
      invariant start <= at <= end
      invariant out + Pieces(text, at, end, limit) == Pieces(text, start, end, limit)
    {
      PiecesEnd(text, at, end, limit);
      if end - at <= limit {
        out := out + [Piece(at, end)];
        return;
      }
      var cut := FindCut(text, at, limit);
      PiecesNext(out, text, at, end, limit);
      out := out + [Piece(at, at + cut)];
      at := at + cut;
    }
  }

  lemma PiecesEnd(text: Str, start: nat, end: nat, limit: nat)
    requires 4 <= limit && start <= end <= |text|
    ensures Pieces(text, end, end, limit) == []
    ensures start < end && end - start <= limit ==> Pieces(text, start, end, limit) == [Piece(start, end)]
  {
  }

  lemma PiecesNext(out: seq<Piece>, text: Str, start: nat, end: nat, limit: nat)
    requires 4 <= limit && start + limit < end <= |text|
    ensures var p := Piece(start, start + CutAt(text, start, limit));
            out + Pieces(text, start, end, limit) == (out + [p]) + Pieces(text, p.end, end, limit)
  {
    hide CutAt;
    var p := Piece(start, start + CutAt(text, start, limit));
    assert Pieces(text, start, end, limit) == [p] + Pieces(text, p.end, end, limit);
    hide Pieces;
  }

  /** The cut of one window. */
  method FindCut(text: Str, start: nat, limit: nat) returns (cut: nat)
    requires 4 <= limit && start + limit < |text|
    ensures cut == CutAt(text, start, limit)
  {
    var w := text[start..start + limit];
    var blank, line, space := LastIndex(w, BLANK_LINE), LastIndex(w, [NL]), LastIndex(w, [SPACE]);
    if blank >= 0 {
      return blank + 2;
    }
    if line >= 0 {
      return line + 1;
    }
    if space >= 0 {
      return space + 1;
    }
    cut := FindRuneCut(text, start, limit);
  }

  method FindRuneCut(text: Str, start: nat, limit: nat) returns (cut: nat)
    requires 4 <= limit && start + limit < |text|
    ensures cut == HardCut(text, start, limit)
  {
    cut := limit;
    while cut > 0 && !RuneStart(text[start + cut])
      invariant 0 <= cut <= limit
      invariant RuneCut(text, start, cut) == RuneCut(text, start, limit)
    {
      cut := cut - 1;
    }
    if cut == 0 {
      cut := DecodeWidth(text[start..]);
    }
  }

  // ---------------------------------------------------------------------------------------
  // One section

  predicate InText(text: Str, g: seq<Block>) {
    g != [] && g[0].start <= g[|g| - 1].end <= |text|
  }

  function SplitCandidate(sec: Section, p: Piece): Candidate {
    Candidate(p.start, p.end, sec.path, sec.preamble, true)
  }

  function SplitCandidates(sec: Section, pieces: seq<Piece>): (cs: seq<Candidate>)
    ensures |cs| == |pieces|
    ensures forall i :: 0 <= i < |cs| ==> cs[i] == SplitCandidate(sec, pieces[i])
  {
    seq(|pieces|, i requires 0 <= i < |pieces| => SplitCandidate(sec, pieces[i]))
  }

  /** The candidates of one packed group. */
  function GroupCandidates(text: Str, sec: Section, g: seq<Block>, ceiling: nat): (cs: seq<Candidate>)
    requires InText(text, g)
    requires ceiling == 0 || ceiling >= 64
  {
    var start, end := g[0].start, Last(g).end;
    if ceiling > 0 && end - start > ceiling then
      SplitCandidates(sec, Pieces(text, start, end, ceiling))
    else [Candidate(start, end, sec.path, sec.preamble, false)]
  }

  function GroupsCandidates(text: Str, sec: Section, groups: seq<seq<Block>>, ceiling: nat): (cs: seq<Candidate>)
    requires forall g :: g in groups ==> InText(text, g)
    requires ceiling == 0 || ceiling >= 64
  {
    if groups == [] then []
    else
      assert groups[0] in groups;
      GroupCandidates(text, sec, groups[0], ceiling) + GroupsCandidates(text, sec, groups[1..], ceiling)
  }

  predicate Placed(text: Str, blocks: seq<Block>) { Chain(blocks, 0, |text|) }

  /** g is the blocks i..j of all. */
  ghost predicate RunAt(g: seq<Block>, all: seq<Block>, i: nat, j: nat) {
    i < j <= |all| && g == all[i..j]
  }

  ghost predicate IsRun(g: seq<Block>, all: seq<Block>) {
    exists i: nat, j: nat :: RunAt(g, all, i, j)
  }

  lemma RunOfSuffix(g: seq<Block>, all: seq<Block>, k: nat)
    requires k <= |all| && IsRun(g, all[k..])
    ensures IsRun(g, all)
  {
    var i: nat, j: nat :| RunAt(g, all[k..], i, j);
    assert all[k..][i..j] == all[k + i..k + j];
    assert RunAt(g, all, k + i, k + j);
  }

  /** The new open group and the blocks still to come are a tail of the old ones. */
  lemma SeedIsTail(cur: seq<Block>, b: Block, rest: seq<Block>, capB: int) returns (k: nat)
    requires cur != []
    ensures 0 < k <= |cur| && SeedFor(cur, b, capB) == cur[k..]
    ensures SeedFor(cur, b, capB) + [b] + rest == (cur + ([b] + rest))[k..]
  {
    k := if SeedFor(cur, b, capB) == [] then |cur| else SuffixStart(cur, |cur|);
    TailOfAll(cur, b, rest, k);
  }

  lemma TailOfAll(cur: seq<Block>, b: Block, rest: seq<Block>, k: nat)
    requires k <= |cur|
    ensures cur[k..] + [b] + rest == (cur + ([b] + rest))[k..]
  {
  }

  /** Every packed group is a run of consecutive blocks. */
  lemma {:induction false} PackedRuns(blocks: seq<Block>, cur: seq<Block>, target: int, capB: int)
    ensures forall g :: g in Pack(blocks, cur, target, capB) ==> IsRun(g, cur + blocks)
  {
    var all := cur + blocks;
    if cur != [] {
      assert RunAt(cur, all, 0, |cur|);
    }
    if blocks != [] {
      var b := blocks[0];
      assert blocks == [b] + blocks[1..];
      if cur != [] && b.end - cur[0].start > target {
        var k := SeedIsTail(cur, b, blocks[1..], capB);
        var next := SeedFor(cur, b, capB) + [b];
        PackedRuns(blocks[1..], next, target, capB);
        forall g | g in Pack(blocks[1..], next, target, capB) ensures IsRun(g, all) {
          RunOfSuffix(g, all, k);
        }
      } else {
        assert cur + [b] + blocks[1..] == all;
        PackedRuns(blocks[1..], cur + [b], target, capB);
      }
    }
  }

  lemma RunInText(text: Str, g: seq<Block>, all: seq<Block>)
    requires Placed(text, all) && IsRun(g, all)
    ensures InText(text, g) && Placed(text, g)
  {
    var i: nat, j: nat :| RunAt(g, all, i, j);
    assert g[0] == all[i] && g[|g| - 1] == all[j - 1];
  }

  lemma PackedInText(text: Str, blocks: seq<Block>, target: int, capB: int)
    requires Placed(text, blocks)
    ensures forall g :: g in Pack(blocks, [], target, capB) ==> InText(text, g) && Placed(text, g) && IsRun(g, blocks)
  {
    PackedRuns(blocks, [], target, capB);
    assert [] + blocks == blocks;
    forall g | g in Pack(blocks, [], target, capB) ensures InText(text, g) && Placed(text, g) {
      RunInText(text, g, blocks);
    }
  }

  function SectionCandidates(text: Str, sec: Section, base: int): (cs: seq<Candidate>)
    requires sec.blocks != [] && Placed(text, sec.blocks)
  {
    var ceiling := SectionCeiling(base, sec.path);
    var capB := PackingCap(ceiling);
    var target := Min(TARGET_BYTES, capB);
    if GroupSpan(sec.blocks) <= capB
    then [Candidate(sec.blocks[0].start, Last(sec.blocks).end, sec.path, sec.preamble, false)]
    else
      PackedInText(text, sec.blocks, target, capB);
      GroupsCandidates(text, sec, Pack(sec.blocks, [], target, capB), ceiling)
  }

  /** The ceiling arm of the emit loop: one split candidate per piece. */
  method SplitGroup(text: Str, sec: Section, start: nat, end: nat, ceiling: nat) returns (out: seq<Candidate>)
    requires start <= end <= |text| && ceiling >= 64
    ensures out == SplitCandidates(sec, Pieces(text, start, end, ceiling))
  {
    hide Pieces, IsSplit, CutWell;
    var pieces := HardSplit(text, start, end, ceiling);
    out := [];
    for i := 0 to |pieces|
      invariant |out| == i && forall k :: 0 <= k < i ==> out[k] == SplitCandidate(sec, pieces[k])
    {
      out := out + [SplitCandidate(sec, pieces[i])];
    }
    assert out == SplitCandidates(sec, pieces);
  }

  method ChunkSection(text: Str, sec: Section, base: int) returns (out: seq<Candidate>)
    requires sec.blocks != [] && Placed(text, sec.blocks)
    ensures out == SectionCandidates(text, sec, base)
  {
    var ceiling := SectionCeiling(base, sec.path);
    var capB := PackingCap(ceiling);
    var target := Min(TARGET_BYTES, capB);
    if GroupSpan(sec.blocks) <= capB {
      return [Candidate(sec.blocks[0].start, Last(sec.blocks).end, sec.path, sec.preamble, false)];
    }
    PackedInText(text, sec.blocks, target, capB);
    var groups := PackBlocks(sec.blocks, target, capB);
    out := EmitGroups(text, sec, groups, ceiling);
  }

  method EmitGroups(text: Str, sec: Section, groups: seq<seq<Block>>, ceiling: nat) returns (out: seq<Candidate>)
    requires forall g :: g in groups ==> InText(text, g)
    requires ceiling == 0 || ceiling >= 64
    ensures out == GroupsCandidates(text, sec, groups, ceiling)
  {
    out := [];
    for i := 0 to |groups|
      invariant out + GroupsCandidates(text, sec, groups[i..], ceiling) == GroupsCandidates(text, sec, groups, ceiling)
    {
      hide GroupCandidates, GroupsCandidates, InText;
      var mine := EmitGroup(text, sec, groups[i], ceiling);
      Associative(out, mine, GroupsCandidates(text, sec, groups[i + 1..], ceiling));
      out := out + mine;
    }
  }

  lemma Associative<T>(a: seq<T>, b: seq<T>, c: seq<T>)
    ensures a + (b + c) == a + b + c
  {
  }

  method EmitGroup(text: Str, sec: Section, g: seq<Block>, ceiling: nat) returns (mine: seq<Candidate>)
    requires InText(text, g) && (ceiling == 0 || ceiling >= 64)
    ensures mine == GroupCandidates(text, sec, g, ceiling)
  {
    mine := [Candidate(g[0].start, Last(g).end, sec.path, sec.preamble, false)];
    if ceiling > 0 && Last(g).end - g[0].start > ceiling {
      mine := SplitGroup(text, sec, g[0].start, Last(g).end, ceiling);
    }
  }

  // ---------------------------------------------------------------------------------------
  // Merging

  function Components(path: Str): seq<Str> {
    if path == [] then [] else Text.Split(path, CRUMB)
  }

  function SharedCount(a: seq<Str>, b: seq<Str>): (n: nat)
    ensures n <= |a| && n <= |b| && a[..n] == b[..n]
    ensures n < |a| && n < |b| ==> a[n] != b[n]
  {
    if a != [] && b != [] && a[0] == b[0] then
      var n := SharedCount(a[1..], b[1..]);
      assert a[..n + 1] == [a[0]] + a[1..][..n];
      assert b[..n + 1] == [b[0]] + b[1..][..n];
      n + 1
    else 0
  }

  function SharedComponents(a: Str, b: Str): nat { SharedCount(Components(a), Components(b)) }

  function CommonPathPrefix(a: Str, b: Str): Str {
    Join(Components(a)[..SharedComponents(a, b)], CRUMB)
  }

  function UnionSize(a: Candidate, b: Candidate): int {
    Max(a.end, b.end) - Min(a.start, b.start)
  }

  /** May the tiny chunk c fold into its neighbour n? */
  predicate FitsInto(c: Candidate, n: Candidate, base: int) {
    && n.Mergeable() && n.Size() >= MIN_BYTES
    && UnionSize(n, c) <= MAX_BYTES
    && var ceiling := SectionCeiling(base, CommonPathPrefix(n.path, c.path));
       ceiling == 0 || UnionSize(n, c) <= ceiling
  }

  function Merged(n: Candidate, c: Candidate): Candidate {
    Candidate(Min(n.start, c.start), Max(n.end, c.end), CommonPathPrefix(n.path, c.path), false, false)
  }

  predicate Tiny(c: Candidate) { c.Size() < MIN_BYTES && c.Mergeable() }

  /** The neighbour cands[i] folds into: the one sharing the longer path, the previous on a tie. */
  function Neighbour(cands: seq<Candidate>, i: nat, base: int): (into: Option<nat>)
    requires i < |cands|
    ensures into.Some? ==> into.value < |cands| && (into.value == i + 1 || into.value == i - 1)
                           && FitsInto(cands[i], cands[into.value], base)
    ensures into.None? ==> (i > 0 ==> !FitsInto(cands[i], cands[i - 1], base))
                           && (i + 1 < |cands| ==> !FitsInto(cands[i], cands[i + 1], base))
  {
    var c := cands[i];
    var prevOK := i > 0 && FitsInto(c, cands[i - 1], base);
    var nextOK := i + 1 < |cands| && FitsInto(c, cands[i + 1], base);
    if prevOK && nextOK then
      if SharedComponents(c.path, cands[i + 1].path) > SharedComponents(c.path, cands[i - 1].path)
      then Some(i + 1) else Some(i - 1)
    else if prevOK then Some(i - 1)
    else if nextOK then Some(i + 1)
    else None
  }

  function FoldAt(cands: seq<Candidate>, i: nat, into: nat): seq<Candidate>
    requires i < |cands| && into < |cands|
  {
    var edited := cands[into := Merged(cands[into], cands[i])];
    edited[..i] + edited[i + 1..]
  }

  function MergeFrom(cands: seq<Candidate>, i: nat, base: int): seq<Candidate>
    requires i <= |cands|
    decreases |cands| - i
  {
    if i == |cands| then cands
    else if !Tiny(cands[i]) || Neighbour(cands, i, base).None? then MergeFrom(cands, i + 1, base)
    else MergeFrom(FoldAt(cands, i, Neighbour(cands, i, base).value), i, base)
  }

  method MergeTiny(cands: seq<Candidate>, base: int) returns (out: seq<Candidate>)
    ensures out == MergeFrom(cands, 0, base)
  {
    out := cands;
    var i := 0;
    while i < |out|
      invariant i <= |out|
      invariant MergeFrom(out, i, base) == MergeFrom(cands, 0, base)
      decreases |out| - i
    {
      var c := out[i];
      if c.end - c.start >= MIN_BYTES || !c.Mergeable() {
        i := i + 1;
        continue;
      }
      var prevOK := i > 0 && FitsInto(c, out[i - 1], base);
      var nextOK := i + 1 < |out| && FitsInto(c, out[i + 1], base);
      var into := i;
      if prevOK && nextOK {
        into := if SharedComponents(c.path, out[i + 1].path) > SharedComponents(c.path, out[i - 1].path)
                then i + 1 else i - 1;
      } else if prevOK {
        into := i - 1;
      } else if nextOK {
        into := i + 1;
      } else {
        i := i + 1;
        continue;
      }
      out := out[into := Merged(out[into], c)];
      out := out[..i] + out[i + 1..];
    }
  }

  // ---------------------------------------------------------------------------------------
  // Chunk

  datatype Warning = Warning(ordinal: nat, headingPath: Str, byteStart: int, byteEnd: int)

  datatype ChunkResult = ChunkResult(chunks: seq<Chunk>, warnings: seq<Warning>)

  function BaseCeiling(tokens: int): int {
    if tokens > 0 then tokens * BYTES_PER_TOKEN - TEMPLATE_RESERVE_BYTES else 0
  }

  predicate Chunkable(text: Str, sections: seq<Section>) {
    forall s :: s in sections ==> s.blocks != [] && Placed(text, s.blocks)
  }

  function AllCandidates(text: Str, sections: seq<Section>, base: int): seq<Candidate>
    requires Chunkable(text, sections)
  {
    if sections == [] then []
    else SectionCandidates(text, sections[0], base) + AllCandidates(text, sections[1..], base)
  }

  lemma {:induction false} FlattenedSectionsPlaced(text: Str, sections: seq<Section>)
    requires Placed(text, Flatten(sections)) && forall s :: s in sections ==> s.blocks != []
    ensures Chunkable(text, sections)
  {
    if sections != [] {
      var n := |sections[0].blocks|;
      var all := Flatten(sections);
      assert all[..n] == sections[0].blocks && all[n..] == Flatten(sections[1..]);
      FlattenedSectionsPlaced(text, sections[1..]);
      assert sections == [sections[0]] + sections[1..];
    }
  }

  lemma ScannedChunkable(text: Str)
    ensures Chunkable(text, SectionsSpec(ScanBlocksSpec(text)))
  {
    var blocks := ScanBlocksSpec(text);
    ScanCoversEveryLine(text);
    SectionsKeepContent(blocks, [], PREAMBLE);
    ContentChain(blocks, BodyStart(text), |text|);
    assert PREAMBLE.blocks + ContentOf(blocks) == ContentOf(blocks);
    FlattenedSectionsPlaced(text, SectionsSpec(blocks));
  }

  /** The candidates Chunk numbers. */
  function FinalCandidates(text: Str, tokens: int): seq<Candidate> {
    ScannedChunkable(text);
    var base := BaseCeiling(tokens);
    MergeFrom(AllCandidates(text, SectionsSpec(ScanBlocksSpec(text)), base), 0, base)
  }

  predicate InBounds(text: Str, cands: seq<Candidate>) {
    forall c :: c in cands ==> 0 <= c.start <= c.end <= |text|
  }

  function ChunkOf(text: Str, cands: seq<Candidate>, i: nat): Chunk
    requires i < |cands| && InBounds(text, cands)
  {
    assert cands[i] in cands;
    Chunk(i, text[cands[i].start..cands[i].end], cands[i].path, cands[i].start, cands[i].end)
  }

  function WarningsFrom(cands: seq<Candidate>, i: nat): seq<Warning>
    requires i <= |cands|
    decreases |cands| - i
  {
    if i == |cands| then []
    else (if cands[i].split then [Warning(i, cands[i].path, cands[i].start, cands[i].end)] else [])
         + WarningsFrom(cands, i + 1)
  }

  function Numbered(text: Str, cands: seq<Candidate>): ChunkResult
    requires InBounds(text, cands)
  {
    ChunkResult(seq(|cands|, i requires 0 <= i < |cands| => ChunkOf(text, cands, i)), WarningsFrom(cands, 0))
  }
}
