/** Path containment (internal/pathutil), the range predicate the catalog deletes by, and the
    two set questions discovery asks of it: underAny and normalizeRoots. */
module Paths {
  import opened Bytes

  const ROOT: Str := [SLASH]

  /** pathutil.Within: equal, or beneath at a component boundary. */
  predicate Within(path: Str, prefix: Str) {
    || path == prefix
    || (if prefix == ROOT then ROOT <= path else prefix + [SLASH] <= path)
  }

  predicate StrictlyWithin(path: Str, prefix: Str) {
    Within(path, prefix) && path != prefix
  }

  /** The slash structure filepath.Clean leaves on an absolute path. */
  predicate Cleaned(p: Str) {
    && p != [] && p[0] == SLASH
    && (|p| > 1 ==> p[|p| - 1] != SLASH)
    && forall i :: 0 <= i < |p| - 1 && p[i] == SLASH ==> p[i + 1] != SLASH
  }

  lemma WithinTransitive(a: Str, b: Str, c: Str)
    requires Within(a, b) && Within(b, c)
    ensures Within(a, c)
  {
    if a != b && b != c && c != ROOT {
      assert c + [SLASH] <= b;
      assert b <= a;
    }
  }

  lemma WithinIsPrefix(path: Str, prefix: Str)
    requires Within(path, prefix)
    ensures prefix <= path
  {
  }

  /** The directories above one path form a chain. */
  lemma WithinChain(path: Str, a: Str, b: Str)
    requires Within(path, a) && Within(path, b)
    ensures Within(a, b) || Within(b, a)
  {
    WithinIsPrefix(path, a);
    WithinIsPrefix(path, b);
    if |a| < |b| && a != ROOT {
      assert b[..|a|] == path[..|a|] == a;
      assert b[|a|] == path[|a|] == SLASH;
    }
    if |b| < |a| && b != ROOT {
      assert a[..|b|] == path[..|b|] == b;
      assert a[|b|] == path[|b|] == SLASH;
    }
  }

  /** A directory sorts before everything beneath it. */
  lemma WithinSortsAfter(path: Str, prefix: Str)
    requires StrictlyWithin(path, prefix)
    ensures Less(prefix, path)
  {
    WithinIsPrefix(path, prefix);
    PrefixSortsFirst(prefix, path);
  }

  predicate WithinAny(path: Str, roots: seq<Str>) {
    exists r :: r in roots && Within(path, r)
  }

  // ---------------------------------------------------------------------------------------
  // The range predicate of DeleteByPathPrefix

  /** `path = dir OR (path > dir || '/' AND path < dir || '0')`. */
  predicate InRange(path: Str, dir: Str) {
    path == dir || (Less(dir + [SLASH], path) && Less(path, dir + [SLASH + 1]))
  }

  lemma {:induction false} BetweenBounds(path: Str, dir: Str)
    ensures Less(dir + [SLASH], path) && Less(path, dir + [SLASH + 1])
       <==> dir + [SLASH] <= path && path != dir + [SLASH]
    decreases |dir|
  {
    if dir == [] {
      var low, high: Str := [SLASH], [SLASH + 1];
      assert dir + low == low && dir + high == high;
      assert low[1..] == [] && high[1..] == [];
      if path != [] {
        assert Less(low, path) <==> SLASH < path[0] || (SLASH == path[0] && path[1..] != []);
        assert Less(path, high) <==> path[0] < SLASH + 1;
        assert low <= path <==> path[0] == SLASH;
        assert path == [path[0]] + path[1..];
      }
    } else {
      assert (dir + [SLASH])[1..] == dir[1..] + [SLASH];
      assert (dir + [SLASH + 1])[1..] == dir[1..] + [SLASH + 1];
      if path != [] && path[0] == dir[0] {
        BetweenBounds(path[1..], dir[1..]);
        assert path == [path[0]] + path[1..];
        assert dir + [SLASH] == [dir[0]] + (dir[1..] + [SLASH]);
      }
    }
  }

  /** On every byte string the range is Within, but for the one spelling `dir/`. */
  lemma RangeIsWithin(path: Str, dir: Str)
    requires dir != ROOT
    ensures InRange(path, dir) <==> Within(path, dir) && path != dir + [SLASH]
  {
    BetweenBounds(path, dir);
  }

  lemma RangeIsWithinOnCleaned(path: Str, dir: Str)
    requires Cleaned(path) && dir != [] && dir != ROOT
    ensures InRange(path, dir) <==> Within(path, dir)
  {
    RangeIsWithin(path, dir);
    assert (dir + [SLASH])[|dir|] == SLASH;
  }

  // ---------------------------------------------------------------------------------------
  // filepath.Dir and underAny

  /** The index of the last separator of an absolute path. */
  function LastSlash(p: Str): (i: nat)
    requires p != [] && p[0] == SLASH
    ensures i < |p| && p[i] == SLASH && forall j :: i < j < |p| ==> p[j] != SLASH
    decreases |p|
  {
    if p[|p| - 1] == SLASH then |p| - 1
    else LastSlash(p[..|p| - 1])
  }

  /** filepath.Dir of a cleaned absolute path. */
  function Dir(p: Str): (d: Str)
    requires Cleaned(p)
    ensures Cleaned(d)
    ensures p != ROOT ==> |d| < |p| && StrictlyWithin(p, d)
    ensures p == ROOT ==> d == ROOT
  {
    var i := LastSlash(p);
    if i == 0 then ROOT
    else
      assert p[..i + 1] == p[..i] + [SLASH];
      p[..i]
  }

  /** Nothing lies between a path and its parent. */
  lemma AncestorsAreDirs(path: Str, m: Str)
    requires Cleaned(path) && path != ROOT && m != []
    ensures StrictlyWithin(path, m) <==> m == Dir(path) || StrictlyWithin(Dir(path), m)
  {
    var d := Dir(path);
    var i := LastSlash(path);
    if StrictlyWithin(d, m) {
      WithinTransitive(path, d, m);
      WithinIsPrefix(d, m);
    }
    if StrictlyWithin(path, m) && m != d {
      WithinIsPrefix(path, m);
      if m != ROOT {
        assert path[|m|] == SLASH;
        assert m == path[..|m|];
        assert m + [SLASH] <= path[..i];
      }
    }
  }

  /** underAny: does path lie strictly beneath a member? The walk visits path's ancestors. */
  method UnderAny(path: Str, unknown: set<Str>) returns (under: bool)
    requires Cleaned(path)
    requires [] !in unknown
    ensures path != ROOT ==> (under <==> exists m :: m in unknown && StrictlyWithin(path, m))
    ensures path == ROOT ==> (under <==> ROOT in unknown)
  {
    if |unknown| == 0 {
      assert unknown == {};
      return false;
    }
    var p := Dir(path);
    if path != ROOT {
      forall m | m in unknown ensures StrictlyWithin(path, m) <==> Within(p, m) {
        AncestorsAreDirs(path, m);
      }
    }
    while true
      invariant Cleaned(p)
      invariant path != ROOT ==>
                  forall m :: m in unknown ==> (StrictlyWithin(path, m) <==> Within(p, m))
      invariant path == ROOT ==> p == ROOT
      decreases |p|
    {
      if p in unknown {
        return true;
      }
      var parent := Dir(p);
      if parent == p {
        assert p == ROOT;
        assert forall m :: StrictlyWithin(ROOT, m) ==> m == [];
        return false;
      }
      forall m | m in unknown && m != p ensures Within(p, m) <==> Within(parent, m) {
        AncestorsAreDirs(p, m);
      }
      p := parent;
    }
  }

  // ---------------------------------------------------------------------------------------
  // filepath.Clean

  const HERE: Str := [DOT]
  const UP: Str := [DOT, DOT]

  predicate NoSlash(c: Str) { SLASH !in c }

  function FirstSlash(p: Str): (i: nat)
    ensures i <= |p| && NoSlash(p[..i]) && (i < |p| ==> p[i] == SLASH)
  {
    if p == [] || p[0] == SLASH then 0
    else
      var i := FirstSlash(p[1..]);
      assert p[..i + 1] == [p[0]] + p[1..][..i];
      i + 1
  }

  /** The components of a path, empty ones among them. */
  function Parts(p: Str): (parts: seq<Str>)
    ensures parts != [] && forall c :: c in parts ==> NoSlash(c)
    decreases |p|
  {
    var i := FirstSlash(p);
    if i == |p| then
      assert p[..i] == p;
      [p]
    else [p[..i]] + Parts(p[i + 1..])
  }

  function Joined(parts: seq<Str>): Str {
    if parts == [] then [] else if |parts| == 1 then parts[0] else parts[0] + [SLASH] + Joined(parts[1..])
  }

  /** One more component: nothing and "." add nothing, and ".." takes back the last. */
  function Onto(stack: seq<Str>, c: Str, rooted: bool): seq<Str> {
    if c == [] || c == HERE then stack
    else if c != UP then stack + [c]
    else if stack != [] && stack[|stack| - 1] != UP then stack[..|stack| - 1]
    else if rooted then stack
    else stack + [c]
  }

  function Reduced(parts: seq<Str>, rooted: bool, stack: seq<Str>): seq<Str>
    decreases |parts|
  {
    if parts == [] then stack else Reduced(parts[1..], rooted, Onto(stack, parts[0], rooted))
  }

  function Clean(p: Str): Str {
    var rooted := p != [] && p[0] == SLASH;
    Spelled(Reduced(Parts(p), rooted, []), rooted)
  }

  function Spelled(kept: seq<Str>, rooted: bool): Str {
    if rooted then ROOT + Joined(kept) else if Joined(kept) == [] then HERE else Joined(kept)
  }

  function CleanAll(paths: seq<Str>): seq<Str> { seq(|paths|, i requires 0 <= i < |paths| => Clean(paths[i])) }

  /** What is left of the components: each says something, and ".." only leads, and not from the root. */
  ghost predicate Plain(stack: seq<Str>, rooted: bool) {
    && (forall c :: c in stack ==> c != [] && c != HERE && NoSlash(c))
    && (forall i, j :: 0 <= i < j < |stack| && stack[j] == UP ==> stack[i] == UP)
    && (rooted ==> UP !in stack)
  }

  lemma {:induction false} ReducedIsPlain(parts: seq<Str>, rooted: bool, stack: seq<Str>)
    requires Plain(stack, rooted) && forall c :: c in parts ==> NoSlash(c)
    ensures Plain(Reduced(parts, rooted, stack), rooted)
    decreases |parts|
  {
    if parts != [] {
      var c := parts[0];
      assert c in parts;
      var next := Onto(stack, c, rooted);
      assert forall d :: d in next ==> d in stack || (d == c && c != [] && c != HERE);
      ReducedIsPlain(parts[1..], rooted, next);
    }
  }

  lemma {:induction false} PlainIsReduced(parts: seq<Str>, rooted: bool, stack: seq<Str>)
    requires Plain(stack + parts, rooted)
    ensures Reduced(parts, rooted, stack) == stack + parts
    decreases |parts|
  {
    if parts == [] {
      assert stack + parts == stack;
    } else {
      var c := parts[0];
      assert (stack + parts)[|stack|] == c && c in stack + parts;
      if c == UP && stack != [] {
        assert (stack + parts)[|stack| - 1] == UP;
      }
      assert stack + [c] + parts[1..] == stack + parts;
      PlainIsReduced(parts[1..], rooted, stack + [c]);
    }
  }

  lemma PartsOne(c: Str)
    requires NoSlash(c)
    ensures Parts(c) == [c]
  {
    assert c[..|c|] == c;
    SlashAt(c, |c|);
  }

  lemma PartsCons(c: Str, rest: Str)
    requires NoSlash(c)
    ensures Parts(c + [SLASH] + rest) == [c] + Parts(rest)
  {
    hide FirstSlash;
    var p := c + [SLASH] + rest;
    assert p[..|c|] == c && p[|c| + 1..] == rest;
    SlashAt(p, |c|);
  }

  lemma {:induction false} PartsOfJoined(parts: seq<Str>)
    requires parts != [] && forall c :: c in parts ==> NoSlash(c)
    ensures Parts(Joined(parts)) == parts
    decreases |parts|
  {
    hide Parts, FirstSlash, NoSlash;
    assert parts[0] in parts;
    if |parts| == 1 {
      PartsOne(parts[0]);
    } else {
      assert forall d :: d in parts[1..] ==> d in parts;
      PartsOfJoined(parts[1..]);
      PartsCons(parts[0], Joined(parts[1..]));
    }
  }

  lemma {:induction false} SlashAt(p: Str, n: nat)
    requires n <= |p| && NoSlash(p[..n]) && (n < |p| ==> p[n] == SLASH)
    ensures FirstSlash(p) == n
  {
    if n > 0 {
      assert p[0] == p[..n][0];
      assert p[1..][..n - 1] == p[..n][1..];
      SlashAt(p[1..], n - 1);
    }
  }

  /** A slash shows only between two things that are not. */
  ghost predicate SlashesInside(j: Str) {
    && j != [] && j[0] != SLASH && j[|j| - 1] != SLASH
    && forall i :: 0 <= i < |j| - 1 && j[i] == SLASH ==> j[i + 1] != SLASH
  }

  lemma InsideOne(c: Str)
    requires c != [] && NoSlash(c)
    ensures SlashesInside(c)
  {
    assert forall k :: 0 <= k < |c| ==> c[k] in c && c[k] != SLASH;
  }

  lemma InsideTwo(c: Str, rest: Str)
    requires SlashesInside(c) && SlashesInside(rest)
    ensures SlashesInside(c + [SLASH] + rest)
  {
    var j := c + [SLASH] + rest;
    forall i | 0 <= i < |j| - 1 && j[i] == SLASH ensures j[i + 1] != SLASH {
      if i < |c| {
        assert i < |c| - 1 && c[i] == SLASH && j[i + 1] == c[i + 1];
      } else if i == |c| {
        assert j[i + 1] == rest[0];
      } else {
        assert rest[i - |c| - 1] == SLASH && j[i + 1] == rest[i - |c|];
      }
    }
  }

  /** Components joined show a slash only between two of them. */
  lemma {:induction false} JoinedShape(parts: seq<Str>)
    requires parts != [] && forall c :: c in parts ==> c != [] && NoSlash(c)
    ensures SlashesInside(Joined(parts))
    decreases |parts|
  {
    hide NoSlash, SlashesInside;
    assert parts[0] in parts;
    InsideOne(parts[0]);
    if |parts| > 1 {
      assert forall d :: d in parts[1..] ==> d in parts;
      JoinedShape(parts[1..]);
      InsideTwo(parts[0], Joined(parts[1..]));
    }
  }

  /** A cleaned absolute path has the slash structure the containment tests rely on. */
  lemma CleanIsCleaned(p: Str)
    requires p != [] && p[0] == SLASH
    ensures Cleaned(Clean(p))
  {
    hide Reduced, Parts;
    ReducedIsPlain(Parts(p), true, []);
    var kept := Reduced(Parts(p), true, []);
    if kept != [] {
      JoinedShape(kept);
      var c, j := Clean(p), Joined(kept);
      forall i | 0 <= i < |c| - 1 && c[i] == SLASH ensures c[i + 1] != SLASH {
        if i > 0 { assert j[i - 1] == SLASH; }
      }
    }
  }

  /** Cleaning a clean path changes nothing. */
  lemma CleanTwice(p: Str)
    ensures Clean(Clean(p)) == Clean(p)
  {
    var rooted := p != [] && p[0] == SLASH;
    var kept := Reduced(Parts(p), rooted, []);
    ReducedIsPlain(Parts(p), rooted, []);
    CleanOfPlain(kept, rooted);
  }

  lemma NothingIsClean()
    ensures Clean(ROOT) == ROOT && Clean(HERE) == HERE
  {
    hide Parts;
    PartsOne([]);
    PartsOne(HERE);
    PartsCons([], []);
    var none: seq<Str> := [[]];
    assert [] + [SLASH] + [] == ROOT && Parts(ROOT) == none + none;
    assert (none + none)[1..] == none && none[1..] == [] && [HERE][1..] == [];
    assert Reduced(none + none, true, []) == Reduced(none, true, []) == [] && Reduced([HERE], false, []) == [];
  }

  lemma CleanOfPlain(kept: seq<Str>, rooted: bool)
    requires Plain(kept, rooted)
    ensures Clean(Spelled(kept, rooted)) == Spelled(kept, rooted)
  {
    hide Parts, NoSlash;
    if kept == [] {
      NothingIsClean();
      assert ROOT + [] == ROOT;
    } else {
      JoinedShape(kept);
      PartsOfJoined(kept);
      PlainIsReduced(kept, rooted, []);
      assert [] + kept == kept;
      if rooted {
        RootedReduces(kept);
      }
    }
  }

  /** The leading slash of an absolute path is an empty component, which adds nothing. */
  lemma RootedReduces(kept: seq<Str>)
    requires Plain(kept, true) && kept != [] && Parts(Joined(kept)) == kept && Reduced(kept, true, []) == kept
    ensures Reduced(Parts(ROOT + Joined(kept)), true, []) == kept
  {
    hide Parts, Plain, Joined;
    PartsCons([], Joined(kept));
    assert [] + [SLASH] + Joined(kept) == ROOT + Joined(kept);
    assert ([[]] + kept)[1..] == kept;
  }

  // ---------------------------------------------------------------------------------------
  // normalizeRoots

  predicate Antichain(roots: seq<Str>) {
    forall i, j :: 0 <= i < |roots| && 0 <= j < |roots| && i != j ==> !Within(roots[i], roots[j])
  }

  /** The roots no other configured root contains. */
  ghost function Outermost(configured: seq<Str>): set<Str> {
    set r | r in configured && forall q :: q in configured && Within(r, q) ==> q == r
  }

  /** normalizeRoots. The library sort also drops duplicate spellings here; the loop would,
      because Within is reflexive. */
  method NormalizeRoots(roots: seq<Str>) returns (out: seq<Str>)
    ensures var configured := CleanAll(roots);
            && Antichain(out) && StrictlySorted(out)
            && (forall r :: r in out <==> r in Outermost(configured))
            && (forall p :: WithinAny(p, configured) <==> WithinAny(p, out))
  {
    hide Clean;
    var configured := CleanAll(roots);
    out := OutermostOf(configured);
  }

  /** The loop of normalizeRoots, over cleaned roots. */
  method OutermostOf(configured: seq<Str>) returns (out: seq<Str>)
    ensures Antichain(out) && StrictlySorted(out)
    ensures forall r :: r in out <==> r in Outermost(configured)
    ensures forall p :: WithinAny(p, configured) <==> WithinAny(p, out)
  {
    hide Antichain, StrictlySorted, Outermost, WithinAny, KeptOf, Take;
    var all := set r | r in configured;
    var roots := Take(all, |all|);
    TakeFacts(all, |all|);
    TakeAllIsAll(all);
    out := [];
    KeptNone();
    for i := 0 to |roots|
      invariant KeptOf(roots[..i], out)
    {
      KeepStep(roots, i, out);
      if !WithinAny(roots[i], out) {
        out := out + [roots[i]];
      }
    }
    assert roots[..|roots|] == roots;
    KeptIsOutermost(configured, roots, out);
  }

  lemma KeptNone()
    ensures KeptOf([], [])
  {
  }

  lemma KeepStep(roots: seq<Str>, i: nat, out: seq<Str>)
    requires i < |roots| && StrictlySorted(roots) && KeptOf(roots[..i], out)
    ensures KeptOf(roots[..i + 1], if WithinAny(roots[i], out) then out else out + [roots[i]])
  {
    hide WithinAny, Antichain;
    assert roots[..i + 1] == roots[..i] + [roots[i]];
    if !WithinAny(roots[i], out) {
      KeepNext(roots[..i], out, roots[i]);
    }
  }

  lemma KeptIsOutermost(configured: seq<Str>, roots: seq<Str>, out: seq<Str>)
    requires KeptOf(roots, out) && forall r :: r in roots <==> r in configured
    ensures Antichain(out) && StrictlySorted(out)
    ensures forall r :: r in out <==> r in Outermost(configured)
    ensures forall p :: WithinAny(p, configured) <==> WithinAny(p, out)
  {
    hide Antichain, StrictlySorted, Outermost, WithinAny;
    AntichainCoverIsOutermost(configured, out);
  }

  /** What the loop keeps of the sorted roots it has seen. */
  ghost predicate KeptOf(seen: seq<Str>, out: seq<Str>) {
    && Antichain(out) && StrictlySorted(out)
    && (forall r :: r in out ==> r in seen)
    && (forall r :: r in seen ==> WithinAny(r, out))
  }

  lemma KeepNext(seen: seq<Str>, out: seq<Str>, next: Str)
    requires KeptOf(seen, out) && !WithinAny(next, out)
    requires forall r :: r in seen ==> Less(r, next)
    ensures KeptOf(seen + [next], out + [next])
  {
    var out' := out + [next];
    forall k | 0 <= k < |out| ensures Less(out[k], next) && !Within(out[k], next) && !Within(next, out[k]) {
      assert out[k] in out;
      if Within(out[k], next) {
        LessAsymmetric(out[k], next);
        if out[k] != next { WithinSortsAfter(out[k], next); }
      }
    }
    forall r | r in seen + [next] ensures WithinAny(r, out') {
      if r in seen {
        var q :| q in out && Within(r, q);
        assert q in out';
      } else {
        assert next in out';
      }
    }
  }

  lemma TakeAllIsAll(s: set<Str>)
    ensures forall r :: r in s <==> r in Take(s, |s|)
  {
    var page := Take(s, |s|);
    TakeFacts(s, |s|);
    if r :| r in s && r !in page {
      SortedIsDistinct(page);
      DistinctCardinality(page, s - {r});
      assert false;
    }
  }

  lemma {:induction false} DistinctCardinality(page: seq<Str>, s: set<Str>)
    requires forall i, j :: 0 <= i < j < |page| ==> page[i] != page[j]
    requires forall x :: x in page ==> x in s
    ensures |page| <= |s|
  {
    if page != [] {
      var rest := page[1..];
      assert page[0] in s;
      forall x | x in rest ensures x in s - {page[0]} {
        assert x in page;
      }
      DistinctCardinality(rest, s - {page[0]});
    }
  }

  /** An antichain of configured roots that covers every configured root is Outermost, and
      covers exactly the paths the configured roots cover. */
  lemma AntichainCoverIsOutermost(configured: seq<Str>, out: seq<Str>)
    requires Antichain(out)
    requires forall r :: r in out ==> r in configured
    requires forall r :: r in configured ==> WithinAny(r, out)
    ensures forall r :: r in out <==> r in Outermost(configured)
    ensures forall p :: WithinAny(p, configured) <==> WithinAny(p, out)
  {
    forall r | r in out ensures r in Outermost(configured) {
      forall q | q in configured && Within(r, q) ensures q == r {
        var kept :| kept in out && Within(q, kept);
        WithinTransitive(r, q, kept);
        assert kept == r;
      }
    }
    forall p | WithinAny(p, configured) ensures WithinAny(p, out) {
      var r :| r in configured && Within(p, r);
      var kept :| kept in out && Within(r, kept);
      WithinTransitive(p, r, kept);
    }
  }
}
