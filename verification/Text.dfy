/** The string operations of the Go standard library that the chunker and the query path use,
    on byte strings. */
module Text {
  import opened Bytes

  datatype Option<+T> = None | Some(value: T)

  predicate MatchesAt(s: Str, sep: Str, i: int) {
    0 <= i <= |s| - |sep| && s[i..i + |sep|] == sep
  }

  lemma MatchedAt(s: Str, sep: Str, i: int, k: nat)
    requires MatchesAt(s, sep, i) && k < |sep|
    ensures i + k < |s| && s[i + k] == sep[k]
  {
    assert s[i..i + |sep|][k] == s[i + k];
  }

  lemma MatchesInTail(s: Str, sep: Str)
    requires s != [] && sep != []
    ensures forall j :: 1 <= j ==> (MatchesAt(s, sep, j) <==> MatchesAt(s[1..], sep, j - 1))
  {
    forall j | 1 <= j ensures MatchesAt(s, sep, j) <==> MatchesAt(s[1..], sep, j - 1) {
    }
  }

  /** strings.Index. */
  function Index(s: Str, sep: Str): (i: int)
    requires sep != []
    ensures i == -1 || MatchesAt(s, sep, i)
    ensures forall j :: 0 <= j && (i == -1 || j < i) ==> !MatchesAt(s, sep, j)
    decreases |s|
  {
    if |s| < |sep| then -1
    else if sep <= s then
      assert s[0..|sep|] == sep;
      0
    else
      var r := Index(s[1..], sep);
      assert !MatchesAt(s, sep, 0);
      MatchesInTail(s, sep);
      if r < 0 then -1 else r + 1
  }

  /** strings.LastIndex. */
  function LastIndex(s: Str, sep: Str): (i: int)
    requires sep != []
    ensures i == -1 || MatchesAt(s, sep, i)
    decreases |s|
  {
    if |s| < |sep| then -1
    else if s[|s| - |sep|..] == sep then |s| - |sep|
    else
      var i := LastIndex(s[..|s| - 1], sep);
      i
  }

  lemma {:induction false} LastIndexIsLast(s: Str, sep: Str, j: int)
    requires sep != [] && MatchesAt(s, sep, j)
    ensures j <= LastIndex(s, sep)
    decreases |s|
  {
    if s[|s| - |sep|..] != sep {
      LastIndexIsLast(s[..|s| - 1], sep, j);
    }
  }

  predicate Contains(s: Str, sep: Str)
    requires sep != []
  {
    Index(s, sep) >= 0
  }

  /** strings.Split for a non-empty separator. */
  function Split(s: Str, sep: Str): (parts: seq<Str>)
    requires sep != []
    ensures parts != []
    decreases |s|
  {
    var i := Index(s, sep);
    if i < 0 then [s] else [s[..i]] + Split(s[i + |sep|..], sep)
  }

  /** strings.Join. */
  function Join(parts: seq<Str>, sep: Str): Str {
    if parts == [] then []
    else if |parts| == 1 then parts[0]
    else parts[0] + sep + Join(parts[1..], sep)
  }

  /** The length of the leading run of c. */
  function Run(s: Str, c: byte): (n: nat)
    ensures n <= |s| && (forall i :: 0 <= i < n ==> s[i] == c) && (n < |s| ==> s[n] != c)
  {
    if s == [] || s[0] != c then 0 else 1 + Run(s[1..], c)
  }

  /** The length of the trailing run of c. */
  function RunBack(s: Str, c: byte): (n: nat)
    ensures n <= |s| && (forall i :: |s| - n <= i < |s| ==> s[i] == c) && (n < |s| ==> s[|s| - n - 1] != c)
    decreases |s|
  {
    if s == [] || s[|s| - 1] != c then 0 else 1 + RunBack(s[..|s| - 1], c)
  }

  function TrimLeft(s: Str, c: byte): Str { s[Run(s, c)..] }

  function TrimRight(s: Str, c: byte): Str { s[..|s| - RunBack(s, c)] }

  function TrimSuffix(s: Str, c: byte): Str {
    if s != [] && s[|s| - 1] == c then s[..|s| - 1] else s
  }

  function TrimPrefix(s: Str, c: byte): Str {
    if s != [] && s[0] == c then s[1..] else s
  }

  /** strings.TrimRight(s, " \t"). */
  function TrimBlanksRight(s: Str): Str
    decreases |s|
  {
    if s != [] && s[|s| - 1] in {SPACE, TAB} then TrimBlanksRight(s[..|s| - 1]) else s
  }

  // ---------------------------------------------------------------------------------------
  // unicode.IsSpace, on the UTF-8 spelling of a rune

  predicate IsSpace1(a: byte) { TAB <= a <= CR || a == SPACE }

  predicate IsSpace2(a: byte, b: byte) { a == 0xC2 && (b == 0x85 || b == 0xA0) }

  predicate IsSpace3(a: byte, b: byte, c: byte) {
    || (a == 0xE1 && b == 0x9A && c == 0x80)
    || (a == 0xE2 && b == 0x80 && (0x80 <= c <= 0x8A || c == 0xA8 || c == 0xA9 || c == 0xAF))
    || (a == 0xE2 && b == 0x81 && c == 0x9F)
    || (a == 0xE3 && b == 0x80 && c == 0x80)
  }

  /** The width of the white space rune s starts with, 0 when it starts with none. */
  function SpaceFront(s: Str): (w: nat)
    ensures w <= |s|
  {
    if |s| >= 1 && IsSpace1(s[0]) then 1
    else if |s| >= 2 && IsSpace2(s[0], s[1]) then 2
    else if |s| >= 3 && IsSpace3(s[0], s[1], s[2]) then 3
    else 0
  }

  /** The width of the white space rune s ends with, 0 when it ends with none. */
  function SpaceBack(s: Str): (w: nat)
    ensures w <= |s|
  {
    var n := |s|;
    if n >= 1 && IsSpace1(s[n - 1]) then 1
    else if n >= 2 && IsSpace2(s[n - 2], s[n - 1]) then 2
    else if n >= 3 && IsSpace3(s[n - 3], s[n - 2], s[n - 1]) then 3
    else 0
  }

  function TrimSpaceLeft(s: Str): Str
    decreases |s|
  {
    if SpaceFront(s) == 0 then s else TrimSpaceLeft(s[SpaceFront(s)..])
  }

  function TrimSpaceRight(s: Str): Str
    decreases |s|
  {
    if SpaceBack(s) == 0 then s else TrimSpaceRight(s[..|s| - SpaceBack(s)])
  }

  /** strings.TrimSpace. */
  function TrimSpace(s: Str): Str { TrimSpaceRight(TrimSpaceLeft(s)) }

  predicate Blank(s: Str) { TrimSpace(s) == [] }
}
