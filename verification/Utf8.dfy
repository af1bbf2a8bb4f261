/** UTF-8, section 3 of RFC 3629: the encoding of a scalar value, the strict decoder, and the
    rune boundaries a byte string may be cut at. */
module Utf8 {
  import opened Bytes
  import opened Text

  /** A Unicode scalar value. */
  type Scalar = r: int | 0 <= r < 0xD800 || 0xE000 <= r < 0x110000

  const REPLACEMENT: Scalar := 0xFFFD

  predicate Continues(b: byte) { 0x80 <= b < 0xC0 }

  /** utf8.RuneStart. */
  predicate RuneStart(b: byte) { !Continues(b) }

  /** The value of six-bit digits behind a leading one. */
  function Joined(lead: int, low: int): int { lead * 0x40 + low }

  function EncodeRune(r: Scalar): (s: Str)
    ensures 1 <= |s| <= 4
  {
    var d0, q1 := r % 0x40, r / 0x40;
    var d1, q2 := q1 % 0x40, q1 / 0x40;
    var d2, q3 := q2 % 0x40, q2 / 0x40;
    if r < 0x80 then [r]
    else if r < 0x800 then [0xC0 + q1, 0x80 + d0]
    else if r < 0x10000 then [0xE0 + q2, 0x80 + d1, 0x80 + d0]
    else [0xF0 + q3, 0x80 + d2, 0x80 + d1, 0x80 + d0]
  }

  function Encode(rs: seq<Scalar>): Str {
    if rs == [] then [] else EncodeRune(rs[0]) + Encode(rs[1..])
  }

  function Value2(a: int, b: int): int { Joined(a - 0xC0, b - 0x80) }

  function Value3(a: int, b: int, c: int): int { Joined(Joined(a - 0xE0, b - 0x80), c - 0x80) }

  function Value4(a: int, b: int, c: int, d: int): int {
    Joined(Joined(Joined(a - 0xF0, b - 0x80), c - 0x80), d - 0x80)
  }

  lemma JoinedDigits(lead: int, low: int)
    requires 0 <= low < 0x40
    ensures Joined(lead, low) / 0x40 == lead && Joined(lead, low) % 0x40 == low
  {
  }

  lemma DigitsJoined(r: int)
    ensures Joined(r / 0x40, r % 0x40) == r
  {
  }

  /** The rune a byte string starts with and its width; None where the string starts with no
      well-formed rune: overlong forms, surrogates and values past U+10FFFF are all refused. */
  function Front(s: Str): (f: Option<(Scalar, nat)>)
    ensures f.Some? ==> 1 <= f.value.1 <= |s| && f.value.1 <= 4
  {
    if |s| >= 1 && s[0] < 0x80 then Some((s[0], 1))
    else if |s| >= 2 && 0xC2 <= s[0] < 0xE0 && Continues(s[1]) then
      Some((Value2(s[0], s[1]), 2))
    else if |s| >= 3 && 0xE0 <= s[0] < 0xF0 && Continues(s[1]) && Continues(s[2])
            && (s[0] == 0xE0 ==> s[1] >= 0xA0) && (s[0] == 0xED ==> s[1] < 0xA0) then
      Some((Value3(s[0], s[1], s[2]), 3))
    else if |s| >= 4 && 0xF0 <= s[0] < 0xF5 && Continues(s[1]) && Continues(s[2]) && Continues(s[3])
            && (s[0] == 0xF0 ==> s[1] >= 0x90) && (s[0] == 0xF4 ==> s[1] < 0x90) then
      Some((Value4(s[0], s[1], s[2], s[3]), 4))
    else None
  }

  /** utf8.Valid. */
  predicate Valid(s: Str)
    decreases |s|
  {
    s == [] || (Front(s).Some? && Valid(s[Front(s).value.1..]))
  }

  function Decode(s: Str): seq<Scalar>
    requires Valid(s)
    decreases |s|
  {
    if s == [] then []
    else [Front(s).value.0] + Decode(s[Front(s).value.1..])
  }

  /** The width utf8.DecodeRuneInString answers: one byte for an ill-formed sequence. */
  function DecodeWidth(s: Str): (w: nat)
    requires s != []
    ensures 1 <= w <= 4 && w <= |s|
  {
    if Front(s).Some? then Front(s).value.1 else 1
  }

  lemma FrontOfEncoded(r: Scalar, t: Str)
    ensures Front(EncodeRune(r) + t) == Some((r, |EncodeRune(r)|))
  {
    hide EncodeRune, Value2, Value3, Value4;
    var e := EncodeRune(r);
    var s := e + t;
    EncodedValue(r);
    assert s[0] == e[0];
    if |e| == 2 {
      assert s[1] == e[1];
    } else if |e| == 3 {
      assert s[1] == e[1] && s[2] == e[2];
    } else if |e| == 4 {
      assert s[1] == e[1] && s[2] == e[2] && s[3] == e[3];
    }
  }

  /** The bytes of a rune are what the strict decoder looks for. */
  lemma EncodedValue(r: Scalar)
    ensures var e := EncodeRune(r);
            && (|e| == 1 ==> e[0] == r && r < 0x80)
            && (|e| == 2 ==> 0xC2 <= e[0] < 0xE0 && Continues(e[1]) && Value2(e[0], e[1]) == r)
            && (|e| == 3 ==> 0xE0 <= e[0] < 0xF0 && Continues(e[1]) && Continues(e[2])
                             && (e[0] == 0xE0 ==> e[1] >= 0xA0) && (e[0] == 0xED ==> e[1] < 0xA0)
                             && Value3(e[0], e[1], e[2]) == r)
            && (|e| == 4 ==> 0xF0 <= e[0] < 0xF5 && Continues(e[1]) && Continues(e[2]) && Continues(e[3])
                             && (e[0] == 0xF0 ==> e[1] >= 0x90) && (e[0] == 0xF4 ==> e[1] < 0x90)
                             && Value4(e[0], e[1], e[2], e[3]) == r)
  {
    hide Joined;
    DigitsJoined(r);
    DigitsJoined(r / 0x40);
    DigitsJoined(r / 0x40 / 0x40);
  }

  lemma EncodedFront(s: Str)
    requires Front(s).Some?
    ensures EncodeRune(Front(s).value.0) == s[..Front(s).value.1]
  {
    hide EncodeRune, Value2, Value3, Value4;
    var (r, w) := Front(s).value;
    if w == 1 {
      EncodedOne(s[0]);
      assert s[..1] == [s[0]];
    } else if w == 2 {
      EncodedTwo(s[0], s[1]);
      assert s[..2] == [s[0], s[1]];
    } else if w == 3 {
      EncodedThree(s[0], s[1], s[2]);
      assert s[..3] == [s[0], s[1], s[2]];
    } else {
      EncodedFour(s[0], s[1], s[2], s[3]);
      assert s[..4] == [s[0], s[1], s[2], s[3]];
    }
  }

  lemma EncodedOne(a: byte)
    requires a < 0x80
    ensures EncodeRune(a) == [a]
  {
  }

  lemma EncodedTwo(a: byte, b: byte)
    requires 0xC2 <= a < 0xE0 && Continues(b)
    ensures 0x80 <= Value2(a, b) < 0x800 && EncodeRune(Value2(a, b)) == [a, b]
  {
    JoinedDigits(a - 0xC0, b - 0x80);
  }

  lemma EncodedThree(a: byte, b: byte, c: byte)
    requires 0xE0 <= a < 0xF0 && Continues(b) && Continues(c) && (a == 0xE0 ==> b >= 0xA0) && (a == 0xED ==> b < 0xA0)
    ensures var r := Value3(a, b, c);
            0x800 <= r < 0x10000 && !(0xD800 <= r < 0xE000) && EncodeRune(r) == [a, b, c]
  {
    var q := Joined(a - 0xE0, b - 0x80);
    JoinedDigits(a - 0xE0, b - 0x80);
    JoinedDigits(q, c - 0x80);
  }

  lemma EncodedFour(a: byte, b: byte, c: byte, d: byte)
    requires 0xF0 <= a < 0xF5 && Continues(b) && Continues(c) && Continues(d)
    requires (a == 0xF0 ==> b >= 0x90) && (a == 0xF4 ==> b < 0x90)
    ensures var r := Value4(a, b, c, d);
            0x10000 <= r < 0x110000 && EncodeRune(r) == [a, b, c, d]
  {
    var p := Joined(a - 0xF0, b - 0x80);
    var q := Joined(p, c - 0x80);
    JoinedDigits(a - 0xF0, b - 0x80);
    JoinedDigits(p, c - 0x80);
    JoinedDigits(q, d - 0x80);
  }

  lemma {:induction false} DecodeOfEncoded(rs: seq<Scalar>)
    ensures Valid(Encode(rs)) && Decode(Encode(rs)) == rs
  {
    if rs != [] {
      var tail := Encode(rs[1..]);
      FrontOfEncoded(rs[0], tail);
      DecodeOfEncoded(rs[1..]);
      assert (EncodeRune(rs[0]) + tail)[|EncodeRune(rs[0])|..] == tail;
    }
  }

  lemma EncodeCons(r: Scalar, rest: seq<Scalar>)
    ensures Encode([r] + rest) == EncodeRune(r) + Encode(rest)
  {
    assert ([r] + rest)[1..] == rest;
  }

  lemma {:induction false} EncodeOfDecoded(s: Str)
    requires Valid(s)
    ensures Encode(Decode(s)) == s
    decreases |s|
  {
    hide Front, EncodeRune;
    if s != [] {
      var (r, w) := Front(s).value;
      var rest := Decode(s[w..]);
      EncodedFront(s);
      EncodeOfDecoded(s[w..]);
      EncodeCons(r, rest);
      assert Decode(s) == [r] + rest;
      assert s == s[..w] + s[w..];
    }
  }

  // ---------------------------------------------------------------------------------------
  // Boundaries

  /** The front rune depends only on its own bytes, and only its first byte is a rune start. */
  lemma FrontIsLocal(s: Str, i: nat)
    requires Front(s).Some? && Front(s).value.1 <= i <= |s|
    ensures Front(s[..i]) == Front(s)
  {
  }

  /** A valid string cut at a rune start leaves two valid strings. */
  lemma {:induction false} CutAtRuneStart(s: Str, i: nat)
    requires Valid(s) && i <= |s| && (i < |s| ==> RuneStart(s[i]))
    ensures Valid(s[..i]) && Valid(s[i..])
    decreases |s|
  {
    if i == 0 {
      assert s[i..] == s;
    } else {
      var w := Front(s).value.1;
      CutAtRuneStart(s[w..], i - w);
      FrontIsLocal(s, i);
      assert s[..i][w..] == s[w..][..i - w];
      assert s[i..] == s[w..][i - w..];
    }
  }

  /** After an ASCII byte a valid string can be cut. */
  lemma {:induction false} CutAfterAscii(s: Str, i: nat)
    requires Valid(s) && 0 < i <= |s| && s[i - 1] < 0x80
    ensures Valid(s[..i]) && Valid(s[i..])
    decreases |s|
  {
    var w := Front(s).value.1;
    if i <= w {
      FrontIsLocal(s, w);
      assert s[..i][w..] == [];
    } else {
      CutAfterAscii(s[w..], i - w);
      FrontIsLocal(s, i);
      assert s[..i][w..] == s[w..][..i - w];
      assert s[i..] == s[w..][i - w..];
    }
  }

  /** An index that splits a byte string into two valid ones. */
  predicate Boundary(s: Str, i: int) {
    0 <= i <= |s| && Valid(s[..i]) && Valid(s[i..])
  }

  lemma {:induction false} ValidConcat(a: Str, b: Str)
    requires Valid(a) && Valid(b)
    ensures Valid(a + b)
    decreases |a|
  {
    if a == [] {
      assert a + b == b;
    } else {
      var w := Front(a).value.1;
      assert (a + b)[..|a|] == a;
      assert Front(a + b) == Front(a);
      assert (a + b)[w..] == a[w..] + b;
      ValidConcat(a[w..], b);
    }
  }

  /** The text between two boundaries is valid. */
  lemma {:induction false} BetweenBoundaries(s: Str, i: int, j: int)
    requires Boundary(s, i) && Boundary(s, j) && i <= j
    ensures Valid(s[i..j])
    decreases |s|
  {
    hide Front;
    if i > 0 {
      var w := Front(s[..i]).value.1;
      FrontIsLocal(s[..i], i);
      PrefixFront(s, i);
      PrefixFront(s, j);
      assert s[..i][w..] == s[w..][..i - w];
      assert s[..j][w..] == s[w..][..j - w];
      assert s[i..] == s[w..][i - w..] && s[j..] == s[w..][j - w..];
      BetweenBoundaries(s[w..], i - w, j - w);
      assert s[i..j] == s[w..][i - w..j - w];
    } else {
      assert s[i..j] == s[..j];
    }
  }

  lemma PrefixFront(s: Str, i: nat)
    requires i <= |s| && Front(s[..i]).Some?
    ensures Front(s) == Front(s[..i])
  {
  }
}
