/** Byte strings, their lexicographic order (SQLite's BINARY collation and Go's `<` on
    strings), and the ordered pages a `WHERE key > ? ORDER BY key LIMIT ?` query returns. */
module Bytes {
  type byte = b: int | 0 <= b < 0x100

  type Str = seq<byte>

  const TAB: byte := 9
  const NL: byte := 10
  const CR: byte := 13
  const SPACE: byte := 32
  const HASH: byte := 35
  const DASH: byte := 45
  const DOT: byte := 46
  const SLASH: byte := 47
  const COLON: byte := 58
  const BACKTICK: byte := 96
  const PIPE: byte := 124
  const TILDE: byte := 126

  predicate Less(a: Str, b: Str) {
    b != [] && (a == [] || a[0] < b[0] || (a[0] == b[0] && Less(a[1..], b[1..])))
  }

  lemma LessIrreflexive(a: Str)
    ensures !Less(a, a)
  {
  }

  lemma {:induction false} LessTransitive(a: Str, b: Str, c: Str)
    requires Less(a, b) && Less(b, c)
    ensures Less(a, c)
  {
    if a != [] && a[0] == b[0] && b[0] == c[0] {
      LessTransitive(a[1..], b[1..], c[1..]);
    }
  }

  lemma {:induction false} LessTotal(a: Str, b: Str)
    ensures a == b || Less(a, b) || Less(b, a)
  {
    if a != [] && b != [] && a[0] == b[0] {
      LessTotal(a[1..], b[1..]);
      assert a == [a[0]] + a[1..] && b == [b[0]] + b[1..];
    }
  }

  lemma LessAsymmetric(a: Str, b: Str)
    requires Less(a, b)
    ensures !Less(b, a)
  {
    if Less(b, a) {
      LessTransitive(a, b, a);
      LessIrreflexive(a);
    }
  }

  /** A proper prefix sorts before every extension of it. */
  lemma {:induction false} PrefixSortsFirst(p: Str, s: Str)
    requires p <= s && p != s
    ensures Less(p, s)
  {
    if p != [] {
      PrefixSortsFirst(p[1..], s[1..]);
    }
  }

  predicate StrictlySorted(s: seq<Str>) {
    forall i, j :: 0 <= i < j < |s| ==> Less(s[i], s[j])
  }

  predicate IsLeast(s: set<Str>, m: Str) {
    m in s && forall x :: x in s ==> x == m || Less(m, x)
  }

  lemma {:induction false} LeastExists(s: set<Str>) returns (m: Str)
    requires s != {}
    ensures IsLeast(s, m)
  {
    var x :| x in s;
    if s == {x} {
      m := x;
    } else {
      var rest := LeastExists(s - {x});
      LessTotal(x, rest);
      m := if Less(x, rest) then x else rest;
      forall y | y in s ensures y == m || Less(m, y) {
        if y != x && y != rest && m == x {
          LessTransitive(x, rest, y);
        }
      }
    }
  }

  function Least(s: set<Str>): (m: Str)
    requires s != {}
    ensures IsLeast(s, m)
  {
    assert exists m :: IsLeast(s, m) by { var m := LeastExists(s); }
    assert forall m, m' :: IsLeast(s, m) && IsLeast(s, m') ==> m == m' by {
      forall m, m' | IsLeast(s, m) && IsLeast(s, m') ensures m == m' {
        if m != m' { LessAsymmetric(m, m'); }
      }
    }
    var m :| m in s && IsLeast(s, m);
    m
  }

  /** The first `limit` members of `rows`, in ascending order. */
  function Take(rows: set<Str>, limit: nat): (page: seq<Str>)
    decreases limit
  {
    if limit == 0 || rows == {} then []
    else [Least(rows)] + Take(rows - {Least(rows)}, limit - 1)
  }

  /** `SELECT key FROM rows WHERE key > after ORDER BY key LIMIT limit`. */
  function Page(rows: set<Str>, after: Str, limit: nat): (page: seq<Str>) {
    Take((set r | r in rows && Less(after, r)), limit)
  }

  lemma {:induction false} TakeFacts(rows: set<Str>, limit: nat)
    ensures var page := Take(rows, limit);
            && |page| <= limit
            && StrictlySorted(page)
            && (forall r :: r in page ==> r in rows)
            && (forall r :: r in rows && r !in page ==> |page| == limit && forall q :: q in page ==> Less(q, r))
    decreases limit
  {
    if limit != 0 && rows != {} {
      var m := Least(rows);
      var rest := Take(rows - {m}, limit - 1);
      TakeFacts(rows - {m}, limit - 1);
      assert StrictlySorted([m] + rest) by {
        forall j | 0 <= j < |rest| ensures Less(m, rest[j]) { assert rest[j] in rest; }
      }
    }
  }

  /** What a page is: a sorted list of rows after the cursor, complete up to its own last
      entry, and complete altogether when it is shorter than the limit. */
  ghost predicate IsPage(rows: set<Str>, after: Str, limit: nat, page: seq<Str>) {
    && |page| <= limit
    && StrictlySorted(page)
    && (forall r :: r in page ==> r in rows && Less(after, r))
    && (forall r :: r in rows && Less(after, r) && r !in page ==>
          |page| == limit && forall q :: q in page ==> Less(q, r))
  }

  lemma PageFacts(rows: set<Str>, after: Str, limit: nat)
    ensures IsPage(rows, after, limit, Page(rows, after, limit))
  {
    TakeFacts((set r | r in rows && Less(after, r)), limit);
  }

  lemma SortedIsDistinct(s: seq<Str>)
    requires StrictlySorted(s)
    ensures forall i, j :: 0 <= i < j < |s| ==> s[i] != s[j]
  {
    forall i, j | 0 <= i < j < |s| ensures s[i] != s[j] {
      LessIrreflexive(s[i]);
    }
  }

  /** Two strictly sorted lists with the same members are the same list. */
  lemma {:induction false} SortedIsUnique(s: seq<Str>, t: seq<Str>)
    requires StrictlySorted(s) && StrictlySorted(t)
    requires forall x :: x in s <==> x in t
    ensures s == t
    decreases |s|
  {
    assert |s| > 0 ==> s[0] in s && s[0] in t;
    assert |t| > 0 ==> t[0] in t && t[0] in s;
    if s != [] && t != [] {
      if s[0] != t[0] {
        LessAsymmetric(s[0], t[0]);
        assert false;
      }
      SortedIsDistinct(s);
      SortedIsDistinct(t);
      forall x ensures x in s[1..] <==> x in t[1..] {
        assert s == [s[0]] + s[1..] && t == [t[0]] + t[1..];
        if x in s[1..] { assert x in s; assert x != s[0]; }
        if x in t[1..] { assert x in t; assert x != t[0]; }
      }
      SortedIsUnique(s[1..], t[1..]);
    }
  }
}
