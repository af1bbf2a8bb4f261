/** Grouping blocks under their heading path (internal/chunker/chunker.go: sections). */
module Sections {
  import opened Bytes
  import opened Text
  import opened Blocks

  /** The breadcrumb separator, " > ". */
  const CRUMB: Str := [SPACE, 62, SPACE]

  /** One open heading. */
  datatype Frame = Frame(level: nat, text: Str)

  /** A run of content blocks under one heading path. */
  datatype Section = Section(path: Str, blocks: seq<Block>, preamble: bool)

  function Texts(stack: seq<Frame>): seq<Str> {
    seq(|stack|, i requires 0 <= i < |stack| => stack[i].text)
  }

  function PathOf(stack: seq<Frame>): Str { Join(Texts(stack), CRUMB) }

  /** The stack once a heading of this level has closed its equals and descendants. */
  function Close(stack: seq<Frame>, level: nat): (open: seq<Frame>)
    ensures open <= stack
  {
    if stack != [] && stack[|stack| - 1].level >= level then Close(stack[..|stack| - 1], level) else stack
  }

  function Nonempty(cur: Section): seq<Section> {
    if cur.blocks == [] then [] else [cur]
  }

  const PREAMBLE := Section([], [], true)

  function SectionsFrom(blocks: seq<Block>, stack: seq<Frame>, cur: Section): seq<Section> {
    if blocks == [] then Nonempty(cur)
    else
      var b := blocks[0];
      if b.kind.Heading? then
        var open := Close(stack, b.level) + [Frame(b.level, b.text)];
        Nonempty(cur) + SectionsFrom(blocks[1..], open, Section(PathOf(open), [], false))
      else SectionsFrom(blocks[1..], stack, cur.(blocks := cur.blocks + [b]))
  }

  function SectionsSpec(blocks: seq<Block>): seq<Section> { SectionsFrom(blocks, [], PREAMBLE) }

  method SectionsOf(blocks: seq<Block>) returns (out: seq<Section>)
    ensures out == SectionsSpec(blocks)
  {
    var stack: seq<Frame> := [];
    var cur := PREAMBLE;
    out := [];
    for i := 0 to |blocks|
      invariant out + SectionsFrom(blocks[i..], stack, cur) == SectionsSpec(blocks)
    {
      var b := blocks[i];
      assert blocks[i..][0] == b && blocks[i..][1..] == blocks[i + 1..];
      if b.kind.Heading? {
        ghost var before := stack;
        while |stack| > 0 && stack[|stack| - 1].level >= b.level
          invariant Close(stack, b.level) == Close(before, b.level)
        {
          stack := stack[..|stack| - 1];
        }
        stack := stack + [Frame(b.level, b.text)];
        out := out + Nonempty(cur);
        cur := Section(PathOf(stack), [], false);
      } else {
        cur := cur.(blocks := cur.blocks + [b]);
      }
    }
    out := out + Nonempty(cur);
  }

  // ---------------------------------------------------------------------------------------
  // No content block is lost, moved or put in two sections

  function ContentOf(blocks: seq<Block>): seq<Block> {
    if blocks == [] then []
    else (if blocks[0].kind.Heading? then [] else [blocks[0]]) + ContentOf(blocks[1..])
  }

  function Flatten(sections: seq<Section>): seq<Block> {
    if sections == [] then [] else sections[0].blocks + Flatten(sections[1..])
  }

  lemma {:induction false} FlattenConcat(a: seq<Section>, b: seq<Section>)
    ensures Flatten(a + b) == Flatten(a) + Flatten(b)
  {
    if a == [] {
      assert a + b == b;
    } else {
      assert (a + b)[1..] == a[1..] + b;
      FlattenConcat(a[1..], b);
    }
  }

  lemma {:induction false} SectionsKeepContent(blocks: seq<Block>, stack: seq<Frame>, cur: Section)
    ensures Flatten(SectionsFrom(blocks, stack, cur)) == cur.blocks + ContentOf(blocks)
    ensures forall s :: s in SectionsFrom(blocks, stack, cur) ==> s.blocks != []
  {
    if blocks != [] {
      var b := blocks[0];
      if b.kind.Heading? {
        var open := Close(stack, b.level) + [Frame(b.level, b.text)];
        var next := Section(PathOf(open), [], false);
        SectionsKeepContent(blocks[1..], open, next);
        FlattenConcat(Nonempty(cur), SectionsFrom(blocks[1..], open, next));
        assert Flatten(Nonempty(cur)) == cur.blocks;
      } else {
        SectionsKeepContent(blocks[1..], stack, cur.(blocks := cur.blocks + [b]));
      }
    }
  }

  // ---------------------------------------------------------------------------------------
  // The breadcrumb

  /** The headings in force after `blocks`, outermost first: walking back, each heading shallower
      than every heading met on the way. */
  function InForce(blocks: seq<Block>, below: nat): seq<Frame> {
    if blocks == [] then []
    else
      var n := |blocks| - 1;
      var b := blocks[n];
      if b.kind.Heading? && b.level < below
      then InForce(blocks[..n], b.level) + [Frame(b.level, b.text)]
      else InForce(blocks[..n], below)
  }

  /** Deeper than any heading. */
  const DEEPEST := 7

  lemma {:induction false} CloseIsInForce(blocks: seq<Block>, below: nat, level: nat)
    requires level <= below
    ensures Close(InForce(blocks, below), level) == InForce(blocks, level)
  {
    if blocks != [] {
      var n := |blocks| - 1;
      var b := blocks[n];
      if b.kind.Heading? && b.level < below {
        if b.level >= level {
          CloseIsInForce(blocks[..n], b.level, level);
        }
      } else {
        CloseIsInForce(blocks[..n], below, level);
      }
    }
  }

  ghost predicate UnderItsHeadings(blocks: seq<Block>, s: Section, b: Block) {
    exists n :: 0 <= n < |blocks| && blocks[n] == b
                && s.path == PathOf(InForce(blocks[..n], DEEPEST))
  }

  lemma {:induction false} SectionsNameHeadings(all: seq<Block>, n: nat, stack: seq<Frame>, cur: Section)
    requires n <= |all|
    requires forall b :: b in all && b.kind.Heading? ==> b.level < DEEPEST
    requires stack == InForce(all[..n], DEEPEST) && cur.path == PathOf(stack)
    requires forall b :: b in cur.blocks ==> UnderItsHeadings(all, cur, b)
    ensures forall s, b :: s in SectionsFrom(all[n..], stack, cur) && b in s.blocks ==> UnderItsHeadings(all, s, b)
    decreases |all| - n
  {
    if n < |all| {
      var b := all[n];
      assert all[n..][0] == b && all[n..][1..] == all[n + 1..];
      assert all[..n + 1][..n] == all[..n];
      if b.kind.Heading? {
        CloseIsInForce(all[..n], DEEPEST, b.level);
        var open := Close(stack, b.level) + [Frame(b.level, b.text)];
        SectionsNameHeadings(all, n + 1, open, Section(PathOf(open), [], false));
      } else {
        var next := cur.(blocks := cur.blocks + [b]);
        forall x | x in next.blocks ensures UnderItsHeadings(all, next, x) {
          if x in cur.blocks {
            var m :| 0 <= m < |all| && all[m] == x && cur.path == PathOf(InForce(all[..m], DEEPEST));
            assert next.path == cur.path;
          }
        }
        SectionsNameHeadings(all, n + 1, stack, next);
      }
    }
  }

  /** sections: every content block exactly once and in order, in a non-empty section named after
      the headings in force where the block stands. */
  lemma SectionsTheorem(blocks: seq<Block>)
    requires forall b :: b in blocks && b.kind.Heading? ==> b.level < DEEPEST
    ensures Flatten(SectionsSpec(blocks)) == ContentOf(blocks)
    ensures forall s :: s in SectionsSpec(blocks) ==> s.blocks != []
    ensures forall s, b :: s in SectionsSpec(blocks) && b in s.blocks ==> UnderItsHeadings(blocks, s, b)
  {
    SectionsKeepContent(blocks, [], PREAMBLE);
    assert blocks[0..] == blocks && blocks[..0] == [];
    assert PathOf([]) == [];
    SectionsNameHeadings(blocks, 0, [], PREAMBLE);
  }

  lemma {:induction false} ScannedHeadings(text: Str, lines: seq<Line>, i: nat, para: Option<nat>)
    requires WellPlaced(text, lines) && i <= |lines| && (para.Some? ==> para.value < i)
    ensures forall b :: b in ScanFrom(text, lines, i, para) && b.kind.Heading? ==> b.level < DEEPEST
    decreases |lines| - i
  {
    if i < |lines| {
      var t := TurnAt(text, lines, i, para);
      ScannedHeadings(text, lines, t.next, t.para);
    }
  }

  // ---------------------------------------------------------------------------------------
  // Order

  lemma {:induction false} ContentMembers(blocks: seq<Block>)
    ensures forall b :: b in ContentOf(blocks) <==> b in blocks && !b.kind.Heading?
  {
    if blocks != [] {
      ContentMembers(blocks[1..]);
      assert blocks == [blocks[0]] + blocks[1..];
    }
  }

  lemma {:induction false} ContentChain(blocks: seq<Block>, lo: int, hi: int)
    requires Chain(blocks, lo, hi)
    ensures Chain(ContentOf(blocks), lo, hi)
  {
    if blocks != [] {
      var b := blocks[0];
      var mine := if b.kind.Heading? then [] else [b];
      ChainFrom(blocks, 1, lo, hi);
      ContentChain(blocks[1..], b.end, hi);
      assert Chain(mine, lo, b.end);
      ChainConcat(mine, ContentOf(blocks[1..]), lo, b.end, hi);
    }
  }

  lemma ChainFrom(blocks: seq<Block>, i: nat, lo: int, hi: int)
    requires Chain(blocks, lo, hi) && 0 < i <= |blocks|
    ensures Chain(blocks[i..], blocks[i - 1].end, hi)
  {
  }
}
