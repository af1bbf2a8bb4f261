/** The markdown block scanner (internal/chunker/blocks.go). */
module Blocks {
  import opened Bytes
  import opened Text

  datatype Kind = Paragraph | Heading | Fence | Table

  /** A byte span [start, end) of the normalized source; level and text are a heading's. */
  datatype Block = Block(kind: Kind, start: nat, end: nat, level: nat, text: Str)

  /** One source line; end includes its newline. */
  datatype Line = Line(start: nat, end: nat)

  // ---------------------------------------------------------------------------------------
  // Lines

  /** The lines of text[start..], with no newline in [start, i). */
  function LinesFrom(text: Str, start: nat, i: nat): (lines: seq<Line>)
    requires start <= i <= |text|
    decreases |text| - i
  {
    if i == |text| then (if start < |text| then [Line(start, |text|)] else [])
    else if text[i] == NL then [Line(start, i + 1)] + LinesFrom(text, i + 1, i + 1)
    else LinesFrom(text, start, i + 1)
  }

  function Lines(text: Str): seq<Line> { LinesFrom(text, 0, 0) }

  /** Line k starts where line k - 1 ends. */
  predicate Abut(lines: seq<Line>, k: int)
    requires 0 < k < |lines|
  {
    lines[k - 1].end == lines[k].start
  }

  /** Lines tile [start, |text|): each non-empty, and each but the last ends at its only newline. */
  predicate Tile(text: Str, lines: seq<Line>, start: nat) {
    && (lines == [] <==> start == |text|)
    && (lines != [] ==> lines[0].start == start && lines[|lines| - 1].end == |text|)
    && (forall k :: 0 < k < |lines| ==> Abut(lines, k))
    && (forall k :: 0 <= k < |lines| ==> lines[k].start < lines[k].end <= |text|)
    && (forall k, j :: 0 <= k < |lines| && lines[k].start <= j < lines[k].end - 1 ==> text[j] != NL)
    && (forall k :: 0 <= k < |lines| - 1 ==> text[lines[k].end - 1] == NL)
  }

  lemma TileCons(text: Str, l: Line, rest: seq<Line>)
    requires l.start < l.end <= |text| && text[l.end - 1] == NL && Tile(text, rest, l.end)
    requires forall j :: l.start <= j < l.end - 1 ==> text[j] != NL
    ensures Tile(text, [l] + rest, l.start)
  {
    var all := [l] + rest;
    forall k | 0 < k < |all| ensures Abut(all, k) {
      if k > 1 { assert Abut(rest, k - 1); }
    }
  }

  lemma {:induction false} LinesFromTile(text: Str, start: nat, i: nat)
    requires start <= i <= |text|
    requires forall j :: start <= j < i ==> text[j] != NL
    ensures Tile(text, LinesFrom(text, start, i), start)
    decreases |text| - i
  {
    if i < |text| {
      if text[i] == NL {
        LinesFromTile(text, i + 1, i + 1);
        TileCons(text, Line(start, i + 1), LinesFrom(text, i + 1, i + 1));
      } else {
        LinesFromTile(text, start, i + 1);
      }
    }
  }

  lemma LinesTile(text: Str)
    ensures Tile(text, Lines(text), 0)
  {
    LinesFromTile(text, 0, 0);
  }

  method SplitLines(text: Str) returns (lines: seq<Line>)
    ensures lines == Lines(text)
    ensures Tile(text, lines, 0)
  {
    lines := [];
    var start := 0;
    for i := 0 to |text|
      invariant start <= i
      invariant lines + LinesFrom(text, start, i) == Lines(text)
    {
      if text[i] == NL {
        lines := lines + [Line(start, i + 1)];
        start := i + 1;
      }
    }
    if start < |text| {
      lines := lines + [Line(start, |text|)];
    }
    LinesTile(text);
  }

  predicate WellPlaced(text: Str, lines: seq<Line>) {
    forall k :: 0 <= k < |lines| ==> lines[k].start < lines[k].end <= |text|
  }

  /** trimLine: a line without its newline, and without a carriage return before that. */
  function TrimLine(text: Str, l: Line): Str
    requires l.start <= l.end <= |text|
  {
    TrimSuffix(TrimSuffix(text[l.start..l.end], NL), CR)
  }

  // ---------------------------------------------------------------------------------------
  // Line classification

  datatype ATX = ATX(level: nat, text: Str)

  /** parseATXHeading. */
  function ParseATX(s: Str): (h: Option<ATX>) {
    var n := Run(s, HASH);
    if n < 1 || n > 6 || n >= |s| || s[n] != SPACE then None
    else
      var t := TrimSpace(s[n + 1..]);
      var stripped := TrimRight(t, HASH);
      var closed := stripped == [] || stripped[|stripped| - 1] == SPACE;
      Some(ATX(n, if closed then TrimSpace(stripped) else t))
  }

  /** fenceOpen: the run of backticks or tildes that opens a fence. */
  function FenceOpen(s: Str): (marker: Option<Str>)
    ensures marker.Some? ==> |marker.value| >= 3
  {
    var trimmed := TrimLeft(s, SPACE);
    if |s| - |trimmed| > 3 then None
    else if Run(trimmed, BACKTICK) >= 3 then Some(trimmed[..Run(trimmed, BACKTICK)])
    else if Run(trimmed, TILDE) >= 3 then Some(trimmed[..Run(trimmed, TILDE)])
    else None
  }

  /** fenceCloses: the same character, at least as long, and nothing else. */
  predicate FenceCloses(s: Str, marker: Str)
    requires marker != []
  {
    var left := TrimLeft(s, SPACE);
    var trimmed := TrimRight(left, SPACE);
    && |s| - |left| <= 3
    && |trimmed| >= |marker|
    && forall i :: 0 <= i < |trimmed| ==> trimmed[i] == marker[0]
  }

  predicate IsPipeLine(s: Str) { PIPE in s }

  predicate IsDelimiterCell(cell: Str) {
    var c := TrimSuffix(TrimPrefix(TrimSpace(cell), COLON), COLON);
    c != [] && forall i :: 0 <= i < |c| ==> c[i] == DASH
  }

  /** isDelimiterRow: cells of dashes with optional colons, separated by pipes. */
  predicate IsDelimiterRow(s: Str) {
    var row := TrimSpace(s);
    && DASH in row && PIPE in row
    && forall cell :: cell in Split(TrimSuffix(TrimPrefix(row, PIPE), PIPE), [PIPE]) ==> IsDelimiterCell(cell)
  }

  // ---------------------------------------------------------------------------------------
  // Frontmatter

  function Delimiter(text: Str, l: Line): Str
    requires l.start <= l.end <= |text|
  {
    TrimBlanksRight(TrimLine(text, l))
  }

  const RULE: Str := [DASH, DASH, DASH]
  const DOTS: Str := [DOT, DOT, DOT]

  predicate ClosesFrontmatter(text: Str, l: Line)
    requires l.start <= l.end <= |text|
  {
    Delimiter(text, l) == RULE || Delimiter(text, l) == DOTS
  }

  /** What skipFrontmatter answers: nothing to skip, or just past the first closing line. */
  ghost predicate IsContentStart(text: Str, lines: seq<Line>, at: nat)
    requires WellPlaced(text, lines)
  {
    var opens := lines != [] && Delimiter(text, lines[0]) == RULE;
    if opens && exists k :: 1 <= k < |lines| && ClosesFrontmatter(text, lines[k]) then
      && 2 <= at <= |lines| && ClosesFrontmatter(text, lines[at - 1])
      && forall k :: 1 <= k < at - 1 ==> !ClosesFrontmatter(text, lines[k])
    else at == 0
  }

  function CloserFrom(text: Str, lines: seq<Line>, i: nat): (at: nat)
    requires WellPlaced(text, lines) && 1 <= i
    ensures at == 0 || i < at <= |lines|
    ensures at != 0 ==> ClosesFrontmatter(text, lines[at - 1])
    ensures forall k :: i <= k < (if at == 0 then |lines| else at - 1) ==> !ClosesFrontmatter(text, lines[k])
    decreases |lines| - i
  {
    if i >= |lines| then 0
    else if ClosesFrontmatter(text, lines[i]) then i + 1
    else CloserFrom(text, lines, i + 1)
  }

  function ContentStart(text: Str, lines: seq<Line>): (at: nat)
    requires WellPlaced(text, lines)
    ensures at <= |lines| && IsContentStart(text, lines, at)
  {
    if lines == [] || Delimiter(text, lines[0]) != RULE then 0 else CloserFrom(text, lines, 1)
  }

  method SkipFrontmatter(text: Str, lines: seq<Line>) returns (at: nat)
    requires WellPlaced(text, lines)
    ensures at == ContentStart(text, lines)
  {
    if |lines| == 0 || Delimiter(text, lines[0]) != RULE {
      return 0;
    }
    for i := 1 to |lines|
      invariant CloserFrom(text, lines, 1) == CloserFrom(text, lines, i)
    {
      if ClosesFrontmatter(text, lines[i]) {
        return i + 1;
      }
    }
    return 0;
  }

  // ---------------------------------------------------------------------------------------
  // The scan

  function FenceEnd(text: Str, lines: seq<Line>, j: nat, marker: Str): (end: nat)
    requires WellPlaced(text, lines) && j <= |lines| && marker != []
    ensures j <= end <= |lines|
    decreases |lines| - j
  {
    if j < |lines| && !FenceCloses(TrimLine(text, lines[j]), marker)
    then FenceEnd(text, lines, j + 1, marker) else j
  }

  function TableEnd(text: Str, lines: seq<Line>, j: nat): (end: nat)
    requires WellPlaced(text, lines) && j <= |lines|
    ensures j <= end <= |lines|
    decreases |lines| - j
  {
    if j < |lines| && IsPipeLine(TrimLine(text, lines[j]))
    then TableEnd(text, lines, j + 1) else j
  }

  predicate StartsTable(text: Str, lines: seq<Line>, i: nat)
    requires WellPlaced(text, lines) && i < |lines|
  {
    && IsPipeLine(TrimLine(text, lines[i]))
    && i + 1 < |lines| && IsDelimiterRow(TrimLine(text, lines[i + 1]))
  }

  /** The paragraph block of the open run of lines para..i, if one is open. */
  function FlushPara(lines: seq<Line>, para: Option<nat>, i: nat): seq<Block>
    requires i <= |lines| && (para.Some? ==> para.value < i)
  {
    if para.None? then []
    else [Block(Paragraph, lines[para.value].start, lines[i - 1].end, 0, [])]
  }

  /** One turn of the scan: the blocks it emits, the next line, the paragraph left open. */
  datatype Turn = Turn(emitted: seq<Block>, next: nat, para: Option<nat>)

  /** The fence line i opens: to its closing line, or to the end of the text. */
  function FenceAt(text: Str, lines: seq<Line>, i: nat, marker: Str): (f: (Block, nat))
    requires WellPlaced(text, lines) && i < |lines| && marker != []
    ensures i < f.1 <= |lines|
  {
    var j := FenceEnd(text, lines, i + 1, marker);
    if j < |lines| then (Block(Fence, lines[i].start, lines[j].end, 0, []), j + 1)
    else (Block(Fence, lines[i].start, |text|, 0, []), j)
  }

  /** The block line i opens, if it opens one, and the line after it. */
  function BlockAt(text: Str, lines: seq<Line>, i: nat): (found: Option<(Block, nat)>)
    requires WellPlaced(text, lines) && i < |lines|
    ensures found.Some? ==> i < found.value.1 <= |lines|
    ensures found.Some? && found.value.0.kind.Heading? ==> 1 <= found.value.0.level <= 6
  {
    var s := TrimLine(text, lines[i]);
    if ParseATX(s).Some? then
      var h := ParseATX(s).value;
      Some((Block(Heading, lines[i].start, lines[i].end, h.level, h.text), i + 1))
    else if FenceOpen(s).Some? then
      Some(FenceAt(text, lines, i, FenceOpen(s).value))
    else if StartsTable(text, lines, i) then
      var j := TableEnd(text, lines, i + 2);
      Some((Block(Table, lines[i].start, lines[j - 1].end, 0, []), j))
    else None
  }

  function TurnAt(text: Str, lines: seq<Line>, i: nat, para: Option<nat>): (t: Turn)
    requires WellPlaced(text, lines) && i < |lines| && (para.Some? ==> para.value < i)
    ensures i < t.next <= |lines| && (t.para.Some? ==> t.para.value < t.next)
    ensures forall b :: b in t.emitted && b.kind.Heading? ==> 1 <= b.level <= 6
  {
    if Blank(TrimLine(text, lines[i])) then Turn(FlushPara(lines, para, i), i + 1, None)
    else match BlockAt(text, lines, i)
      case Some((b, next)) => Turn(FlushPara(lines, para, i) + [b], next, None)
      case None => Turn([], i + 1, if para.None? then Some(i) else para)
  }

  /** The blocks of lines i onwards, with a paragraph possibly open since line para. */
  function ScanFrom(text: Str, lines: seq<Line>, i: nat, para: Option<nat>): (blocks: seq<Block>)
    requires WellPlaced(text, lines) && i <= |lines| && (para.Some? ==> para.value < i)
    decreases |lines| - i
  {
    if i == |lines| then FlushPara(lines, para, i)
    else
      var t := TurnAt(text, lines, i, para);
      t.emitted + ScanFrom(text, lines, t.next, t.para)
  }

  function ScanBlocksSpec(text: Str): seq<Block> {
    LinesTile(text);
    var lines := Lines(text);
    ScanFrom(text, lines, ContentStart(text, lines), None)
  }

  method FindFenceEnd(text: Str, lines: seq<Line>, from: nat, marker: Str) returns (j: nat)
    requires WellPlaced(text, lines) && from <= |lines| && marker != []
    ensures j == FenceEnd(text, lines, from, marker)
  {
    j := from;
    while j < |lines| && !FenceCloses(TrimLine(text, lines[j]), marker)
      invariant from <= j <= |lines|
      invariant FenceEnd(text, lines, from, marker) == FenceEnd(text, lines, j, marker)
    {
      j := j + 1;
    }
  }

  method FindTableEnd(text: Str, lines: seq<Line>, from: nat) returns (j: nat)
    requires WellPlaced(text, lines) && from <= |lines|
    ensures j == TableEnd(text, lines, from)
  {
    j := from;
    while j < |lines| && IsPipeLine(TrimLine(text, lines[j]))
      invariant from <= j <= |lines|
      invariant TableEnd(text, lines, from) == TableEnd(text, lines, j)
    {
      j := j + 1;
    }
  }

  /** The fence arm of the loop body. */
  method OpenFence(text: Str, lines: seq<Line>, i: nat, marker: Str) returns (b: Block, next: nat)
    requires WellPlaced(text, lines) && i < |lines| && marker != []
    ensures (b, next) == FenceAt(text, lines, i, marker)
  {
    var j := FindFenceEnd(text, lines, i + 1, marker);
    var end := |text|;
    next := j;
    if j < |lines| {
      end := lines[j].end;
      next := j + 1;
    }
    b := Block(Fence, lines[i].start, end, 0, []);
  }

  /** The heading, fence or table arm of the loop body. */
  method OpenBlock(text: Str, lines: seq<Line>, i: nat) returns (found: Option<(Block, nat)>)
    requires WellPlaced(text, lines) && i < |lines|
    ensures found == BlockAt(text, lines, i)
  {
    hide ParseATX, FenceOpen, IsDelimiterRow, FenceEnd, TableEnd, FenceAt, TrimLine;
    var s := TrimLine(text, lines[i]);
    var atx := ParseATX(s);
    if atx.Some? {
      return Some((Block(Heading, lines[i].start, lines[i].end, atx.value.level, atx.value.text), i + 1));
    }
    var marker := FenceOpen(s);
    if marker.Some? {
      var b, next := OpenFence(text, lines, i, marker.value);
      return Some((b, next));
    }
    if StartsTable(text, lines, i) {
      var j := FindTableEnd(text, lines, i + 2);
      return Some((Block(Table, lines[i].start, lines[j - 1].end, 0, []), j));
    }
    return None;
  }

  /** The loop body: what line i emits and where the scan goes next. */
  method ScanLine(text: Str, lines: seq<Line>, i: nat, para: Option<nat>)
    returns (emitted: seq<Block>, next: nat, open: Option<nat>)
    requires WellPlaced(text, lines) && i < |lines| && (para.Some? ==> para.value < i)
    ensures Turn(emitted, next, open) == TurnAt(text, lines, i, para)
  {
    if Blank(TrimLine(text, lines[i])) {
      return FlushPara(lines, para, i), i + 1, None;
    }
    var found := OpenBlock(text, lines, i);
    if found.Some? {
      return FlushPara(lines, para, i) + [found.value.0], found.value.1, None;
    }
    return [], i + 1, if para.None? then Some(i) else para;
  }

  method ScanBlocks(text: Str) returns (blocks: seq<Block>)
    ensures blocks == ScanBlocksSpec(text)
  {
    hide TurnAt, ContentStart, Lines;
    var lines := SplitLines(text);
    var i := SkipFrontmatter(text, lines);
    blocks := [];
    var para: Option<nat> := None;
    while i < |lines|
      invariant i <= |lines| && (para.Some? ==> para.value < i)
      invariant blocks + ScanFrom(text, lines, i, para) == ScanBlocksSpec(text)
      decreases |lines| - i
    {
      var emitted, next, open := ScanLine(text, lines, i, para);
      assert blocks + (emitted + ScanFrom(text, lines, next, open)) == blocks + emitted + ScanFrom(text, lines, next, open);
      blocks, i, para := blocks + emitted, next, open;
    }
    blocks := blocks + FlushPara(lines, para, |lines|);
  }

  // ---------------------------------------------------------------------------------------
  // What the scan guarantees

  /** Non-empty spans in [lo, hi), in order and disjoint. */
  predicate Chain(blocks: seq<Block>, lo: int, hi: int) {
    && (forall k :: 0 <= k < |blocks| ==> lo <= blocks[k].start < blocks[k].end <= hi)
    && (forall j, k :: 0 <= j < k < |blocks| ==> blocks[j].end <= blocks[k].start)
  }

  /** Whole lines: a block starts after a newline and ends with one, but for the text's own ends. */
  predicate Aligned(text: Str, b: Block) {
    && (b.start == 0 || (b.start <= |text| && text[b.start - 1] == NL))
    && (b.end == |text| || (0 < b.end <= |text| && text[b.end - 1] == NL))
  }

  lemma LineSpansAlign(text: Str, lines: seq<Line>, i: nat, next: nat, b: Block)
    requires Tile(text, lines, 0) && i < next <= |lines|
    requires b.start == lines[i].start && b.end == lines[next - 1].end
    ensures Aligned(text, b)
  {
    if i > 0 { assert Abut(lines, i); }
  }

  predicate Holds(blocks: seq<Block>, l: Line) {
    exists b :: b in blocks && b.start <= l.start && l.end <= b.end
  }

  /** The byte at which line i starts, the end of the text after the last line. */
  function StartOf(text: Str, lines: seq<Line>, i: nat): nat
    requires i <= |lines|
  {
    if i < |lines| then lines[i].start else |text|
  }

  lemma {:induction false} TileMonotone(text: Str, lines: seq<Line>, i: nat, j: nat)
    requires Tile(text, lines, 0) && i <= j <= |lines|
    ensures StartOf(text, lines, i) <= StartOf(text, lines, j)
    ensures i < j ==> lines[i].end <= lines[j - 1].end <= StartOf(text, lines, j)
    decreases j - i
  {
    if i < j {
      TileMonotone(text, lines, i, j - 1);
      if j < |lines| { assert Abut(lines, j); }
    }
  }

  lemma FlushShape(text: Str, lines: seq<Line>, para: Option<nat>, i: nat)
    requires Tile(text, lines, 0) && i <= |lines| && (para.Some? ==> para.value < i)
    ensures var first := if para.Some? then para.value else i;
            && Chain(FlushPara(lines, para, i), StartOf(text, lines, first), StartOf(text, lines, i))
            && (forall b :: b in FlushPara(lines, para, i) ==> Aligned(text, b))
            && forall k :: first <= k < i ==> Holds(FlushPara(lines, para, i), lines[k])
  {
    if para.Some? {
      var p := para.value;
      LineSpansAlign(text, lines, p, i, FlushPara(lines, para, i)[0]);
      TileMonotone(text, lines, p, i);
      forall k | p <= k < i ensures Holds(FlushPara(lines, para, i), lines[k]) {
        TileMonotone(text, lines, p, k);
        TileMonotone(text, lines, k, i);
        assert FlushPara(lines, para, i)[0] in FlushPara(lines, para, i);
      }
    }
  }

  lemma ChainConcat(a: seq<Block>, b: seq<Block>, lo: int, mid: int, hi: int)
    requires Chain(a, lo, mid) && Chain(b, mid, hi) && lo <= mid <= hi
    ensures Chain(a + b, lo, hi)
  {
  }

  ghost predicate Shape(text: Str, lines: seq<Line>, first: nat, blocks: seq<Block>)
    requires WellPlaced(text, lines) && first <= |lines|
  {
    && Chain(blocks, StartOf(text, lines, first), |text|)
    && (forall b :: b in blocks ==> Aligned(text, b))
    && forall k :: first <= k < |lines| && !Blank(TrimLine(text, lines[k])) ==> Holds(blocks, lines[k])
  }

  /** Gluing: the flushed paragraph, at most one block over lines i..next, and the rest. */
  lemma ShapeStep(text: Str, lines: seq<Line>, para: Option<nat>, i: nat, mine: seq<Block>, next: nat, rest: seq<Block>)
    requires Tile(text, lines, 0) && WellPlaced(text, lines)
    requires i < next <= |lines| && (para.Some? ==> para.value < i)
    requires Chain(mine, StartOf(text, lines, i), StartOf(text, lines, next))
    requires forall b :: b in mine ==> Aligned(text, b)
    requires forall k :: i <= k < next && !Blank(TrimLine(text, lines[k])) ==> Holds(mine, lines[k])
    requires Shape(text, lines, next, rest)
    ensures Shape(text, lines, if para.Some? then para.value else i, FlushPara(lines, para, i) + mine + rest)
  {
    var first := if para.Some? then para.value else i;
    var flushed := FlushPara(lines, para, i);
    FlushShape(text, lines, para, i);
    TileMonotone(text, lines, first, i);
    TileMonotone(text, lines, i, next);
    TileMonotone(text, lines, next, |lines|);
    ChainConcat(flushed, mine, StartOf(text, lines, first), StartOf(text, lines, i), StartOf(text, lines, next));
    ChainConcat(flushed + mine, rest, StartOf(text, lines, first), StartOf(text, lines, next), |text|);
    forall k | first <= k < |lines| && !Blank(TrimLine(text, lines[k]))
      ensures Holds(flushed + mine + rest, lines[k])
    {
    }
  }

  lemma OneBlock(text: Str, lines: seq<Line>, i: nat, next: nat, b: Block)
    requires Tile(text, lines, 0) && i < next <= |lines|
    requires b.start == lines[i].start && b.end == lines[next - 1].end
    ensures Chain([b], StartOf(text, lines, i), StartOf(text, lines, next))
    ensures forall k :: i <= k < next ==> Holds([b], lines[k])
  {
    TileMonotone(text, lines, i, next);
    forall k | i <= k < next ensures Holds([b], lines[k]) {
      TileMonotone(text, lines, i, k);
      TileMonotone(text, lines, k, next);
      assert [b][0] in [b];
    }
  }

  lemma BlockAtSpansItsLines(text: Str, lines: seq<Line>, i: nat)
    requires Tile(text, lines, 0) && WellPlaced(text, lines) && i < |lines|
    ensures BlockAt(text, lines, i).Some? ==>
              var (b, next) := BlockAt(text, lines, i).value;
              b.start == lines[i].start && b.end == lines[next - 1].end
  {
    hide ParseATX, FenceOpen, StartsTable, FenceEnd, TableEnd, TrimLine;
  }

  lemma BlankShape(text: Str, lines: seq<Line>, i: nat, para: Option<nat>, rest: seq<Block>)
    requires Tile(text, lines, 0) && WellPlaced(text, lines)
    requires i < |lines| && (para.Some? ==> para.value < i)
    requires Blank(TrimLine(text, lines[i])) && Shape(text, lines, i + 1, rest)
    ensures Shape(text, lines, if para.Some? then para.value else i, FlushPara(lines, para, i) + rest)
  {
    TileMonotone(text, lines, i, i + 1);
    ShapeStep(text, lines, para, i, [], i + 1, rest);
    assert FlushPara(lines, para, i) + [] == FlushPara(lines, para, i);
  }

  lemma OpensShape(text: Str, lines: seq<Line>, i: nat, para: Option<nat>, rest: seq<Block>)
    requires Tile(text, lines, 0) && WellPlaced(text, lines)
    requires i < |lines| && (para.Some? ==> para.value < i)
    requires BlockAt(text, lines, i).Some? && Shape(text, lines, BlockAt(text, lines, i).value.1, rest)
    ensures Shape(text, lines, if para.Some? then para.value else i,
                  FlushPara(lines, para, i) + [BlockAt(text, lines, i).value.0] + rest)
  {
    hide BlockAt, Shape, FlushPara, Tile, WellPlaced;
    var (b, next) := BlockAt(text, lines, i).value;
    BlockAtSpansItsLines(text, lines, i);
    OneBlockShape(text, lines, i, next, b, para, rest);
  }

  lemma OneBlockShape(text: Str, lines: seq<Line>, i: nat, next: nat, b: Block, para: Option<nat>, rest: seq<Block>)
    requires Tile(text, lines, 0) && WellPlaced(text, lines)
    requires i < next <= |lines| && (para.Some? ==> para.value < i)
    requires b.start == lines[i].start && b.end == lines[next - 1].end
    requires Shape(text, lines, next, rest)
    ensures Shape(text, lines, if para.Some? then para.value else i, FlushPara(lines, para, i) + [b] + rest)
  {
    OneBlock(text, lines, i, next, b);
    LineSpansAlign(text, lines, i, next, b);
    hide Shape, Chain, Holds, Aligned, Blank, TrimLine, FlushPara, StartOf, Tile, WellPlaced;
    ShapeStep(text, lines, para, i, [b], next, rest);
  }

  lemma TurnShape(text: Str, lines: seq<Line>, i: nat, para: Option<nat>, rest: seq<Block>)
    requires Tile(text, lines, 0) && WellPlaced(text, lines)
    requires i < |lines| && (para.Some? ==> para.value < i)
    requires var t := TurnAt(text, lines, i, para);
             Shape(text, lines, if t.para.Some? then t.para.value else t.next, rest)
    ensures Shape(text, lines, if para.Some? then para.value else i, TurnAt(text, lines, i, para).emitted + rest)
  {
    hide BlockAt, Blank, TrimLine;
    var emitted := TurnAt(text, lines, i, para).emitted;
    if Blank(TrimLine(text, lines[i])) {
      BlankShape(text, lines, i, para, rest);
    } else if BlockAt(text, lines, i).Some? {
      OpensShape(text, lines, i, para, rest);
    } else {
      assert emitted + rest == rest;
    }
  }

  lemma {:induction false} ScanShape(text: Str, lines: seq<Line>, i: nat, para: Option<nat>)
    requires Tile(text, lines, 0) && WellPlaced(text, lines)
    requires i <= |lines| && (para.Some? ==> para.value < i)
    ensures Shape(text, lines, if para.Some? then para.value else i, ScanFrom(text, lines, i, para))
    decreases |lines| - i
  {
    if i == |lines| {
      FlushShape(text, lines, para, i);
    } else {
      var t := TurnAt(text, lines, i, para);
      ScanShape(text, lines, t.next, t.para);
      TurnShape(text, lines, i, para, ScanFrom(text, lines, t.next, t.para));
    }
  }

  /** The byte offset of the first content line: past the frontmatter, if there is any. */
  ghost function BodyStart(text: Str): nat {
    LinesTile(text);
    StartOf(text, Lines(text), ContentStart(text, Lines(text)))
  }

  /** Blocks are runs of whole lines, disjoint, in source order and past the frontmatter; every
      line past the frontmatter that is not blank lies in one of them. */
  lemma ScanCoversEveryLine(text: Str)
    ensures Chain(ScanBlocksSpec(text), BodyStart(text), |text|)
    ensures forall b :: b in ScanBlocksSpec(text) ==> Aligned(text, b)
    ensures WellPlaced(text, Lines(text))
    ensures forall k | ContentStart(text, Lines(text)) <= k < |Lines(text)| && !Blank(TrimLine(text, Lines(text)[k])) ::
              Holds(ScanBlocksSpec(text), Lines(text)[k])
  {
    LinesTile(text);
    ScanShape(text, Lines(text), ContentStart(text, Lines(text)), None);
  }
}
