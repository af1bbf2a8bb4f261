/** Ordering a finite set by a strict total order: what `ORDER BY ... LIMIT n` returns. */
module Ranking {
  /** `ahead` orders the members of s strictly and totally. */
  ghost predicate Orders<T(!new)>(ahead: (T, T) -> bool, s: set<T>) {
    && (forall a, b :: a in s && b in s && ahead(a, b) ==> !ahead(b, a))
    && (forall a, b :: a in s && b in s && a != b ==> ahead(a, b) || ahead(b, a))
    && (forall a, b, c :: a in s && b in s && c in s && ahead(a, b) && ahead(b, c) ==> ahead(a, c))
  }

  predicate IsBest<T(==)>(s: set<T>, ahead: (T, T) -> bool, m: T) {
    m in s && forall x :: x in s && x != m ==> ahead(m, x)
  }

  lemma {:induction false} BestExists<T(!new)>(s: set<T>, ahead: (T, T) -> bool) returns (m: T)
    requires s != {} && Orders(ahead, s)
    ensures IsBest(s, ahead, m)
  {
    var x :| x in s;
    if s == {x} {
      m := x;
    } else {
      var rest := s - {x};
      var y := BestExists(rest, ahead);
      assert y in s && x != y;
      m := if ahead(x, y) then x else y;
      forall z | z in s && z != m ensures ahead(m, z) {
        if z != x && z != y {
          assert ahead(y, z);
        }
      }
    }
  }

  function Best<T(!new)>(s: set<T>, ahead: (T, T) -> bool): (m: T)
    requires s != {} && Orders(ahead, s)
    ensures IsBest(s, ahead, m)
  {
    assert exists m :: IsBest(s, ahead, m) by {
      var m := BestExists(s, ahead);
    }
    assert forall m, m' :: IsBest(s, ahead, m) && IsBest(s, ahead, m') ==> m == m';
    var m :| m in s && IsBest(s, ahead, m);
    m
  }

  /** The first n members of s. */
  function Rank<T(!new)>(s: set<T>, ahead: (T, T) -> bool, n: nat): (r: seq<T>)
    requires Orders(ahead, s)
    decreases n
  {
    if n == 0 || s == {} then []
    else
      var m := Best(s, ahead);
      [m] + Rank(s - {m}, ahead, n - 1)
  }

  function RankAll<T(!new)>(s: set<T>, ahead: (T, T) -> bool): (r: seq<T>)
    requires Orders(ahead, s)
  {
    Rank(s, ahead, |s|)
  }

  ghost predicate Descends<T(!new)>(r: seq<T>, ahead: (T, T) -> bool) {
    forall i, j :: 0 <= i < j < |r| ==> ahead(r[i], r[j])
  }

  predicate Distinct<T(==)>(r: seq<T>) {
    forall i, j :: 0 <= i < j < |r| ==> r[i] != r[j]
  }

  lemma {:induction false} RankFacts<T(!new)>(s: set<T>, ahead: (T, T) -> bool, n: nat)
    requires Orders(ahead, s)
    ensures var r := Rank(s, ahead, n);
            && |r| == (if |s| <= n then |s| else n)
            && Descends(r, ahead) && Distinct(r)
            && (forall x :: x in r ==> x in s)
            && (forall x, y :: x in r && y in s && y !in r ==> ahead(x, y))
    decreases n
  {
    if n != 0 && s != {} {
      var m := Best(s, ahead);
      var rest := Rank(s - {m}, ahead, n - 1);
      RankFacts(s - {m}, ahead, n - 1);
      forall j | 0 <= j < |rest| ensures ahead(m, rest[j]) && m != rest[j] {
        assert rest[j] in rest;
      }
    }
  }

  lemma {:induction false} FullSize<T>(r: seq<T>, s: set<T>)
    requires Distinct(r) && |r| == |s| && forall x :: x in r ==> x in s
    ensures forall x :: x in s ==> x in r
  {
    if r != [] {
      var rest := r[1..];
      assert r == [r[0]] + rest;
      assert r[0] in s;
      forall x | x in rest ensures x in s - {r[0]} {
        assert x in r;
        var j :| 0 <= j < |rest| && rest[j] == x;
        assert r[j + 1] == x;
      }
      FullSize(rest, s - {r[0]});
    } else {
      assert s == {};
    }
  }

  /** Ranking everything keeps everything. */
  lemma RankAllFacts<T(!new)>(s: set<T>, ahead: (T, T) -> bool)
    requires Orders(ahead, s)
    ensures var r := RankAll(s, ahead);
            && Descends(r, ahead) && Distinct(r) && |r| == |s| && forall x :: x in r <==> x in s
  {
    RankFacts(s, ahead, |s|);
    FullSize(RankAll(s, ahead), s);
  }

  /** The first n are a prefix of the first m. */
  lemma {:induction false} RankIsPrefix<T(!new)>(s: set<T>, ahead: (T, T) -> bool, n: nat, m: nat)
    requires Orders(ahead, s) && n <= m
    ensures Rank(s, ahead, n) <= Rank(s, ahead, m)
    decreases n
  {
    if n != 0 && s != {} {
      RankIsPrefix(s - {Best(s, ahead)}, ahead, n - 1, m - 1);
    }
  }
}
