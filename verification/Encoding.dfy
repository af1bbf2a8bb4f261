/** Encoding detection and strict UTF-16 decoding (internal/chunker/encoding.go): sections 2.1
    and 2.2 of RFC 2781, with output per section 3 of RFC 3629. */
module Encoding {
  import opened Bytes
  import opened Utf8

  /** A UTF-16 code unit. */
  type Unit = u: int | 0 <= u < 0x10000

  datatype Order = Little | Big

  datatype Refusal = OddLength | Unpaired | Utf32 | NotUtf8

  datatype Decoded = Ok(text: Str) | Err(reason: Refusal)

  predicate High(u: int) { 0xD800 <= u < 0xDC00 }

  predicate Low(u: int) { 0xDC00 <= u < 0xE000 }

  // ---------------------------------------------------------------------------------------
  // Code units and bytes

  function UnitOf(first: byte, second: byte, order: Order): Unit {
    if order.Little? then second * 0x100 + first else first * 0x100 + second
  }

  function Units(b: Str, order: Order): (us: seq<Unit>)
    requires |b| % 2 == 0
    ensures |us| == |b| / 2
  {
    seq(|b| / 2, i requires 0 <= i < |b| / 2 => UnitOf(b[2 * i], b[2 * i + 1], order))
  }

  function UnitByte(us: seq<Unit>, order: Order, i: nat): byte
    requires i < 2 * |us|
  {
    if (i % 2 == 0) == order.Big? then us[i / 2] / 0x100 else us[i / 2] % 0x100
  }

  /** The byte serialization of code units. */
  function UnitBytes(us: seq<Unit>, order: Order): (b: Str)
    ensures |b| == 2 * |us|
  {
    seq(2 * |us|, i requires 0 <= i < 2 * |us| => UnitByte(us, order, i))
  }

  lemma UnitsOfBytes(us: seq<Unit>, order: Order)
    ensures Units(UnitBytes(us, order), order) == us
  {
    var b := UnitBytes(us, order);
    forall i | 0 <= i < |us| ensures Units(b, order)[i] == us[i] {
      assert b[2 * i] == UnitByte(us, order, 2 * i) && b[2 * i + 1] == UnitByte(us, order, 2 * i + 1);
    }
  }

  lemma BytesOfUnits(b: Str, order: Order)
    requires |b| % 2 == 0
    ensures UnitBytes(Units(b, order), order) == b
  {
    var us := Units(b, order);
    forall i | 0 <= i < |b| ensures UnitBytes(us, order)[i] == b[i] {
      assert us[i / 2] == UnitOf(b[2 * (i / 2)], b[2 * (i / 2) + 1], order);
    }
  }

  // ---------------------------------------------------------------------------------------
  // Code units and scalars

  /** Every high surrogate is followed by its low one, and no low one stands alone. */
  predicate WellPaired(us: seq<Unit>) {
    if us == [] then true
    else if High(us[0]) then |us| >= 2 && Low(us[1]) && WellPaired(us[2..])
    else !Low(us[0]) && WellPaired(us[1..])
  }

  /** utf16.Decode, which never fails: an unpaired surrogate becomes U+FFFD. */
  function DecodeUnits(us: seq<Unit>): seq<Scalar> {
    if us == [] then []
    else if High(us[0]) && |us| >= 2 && Low(us[1]) then
      [0x10000 + (us[0] - 0xD800) * 0x400 + (us[1] - 0xDC00)] + DecodeUnits(us[2..])
    else if High(us[0]) || Low(us[0]) then [REPLACEMENT] + DecodeUnits(us[1..])
    else [us[0]] + DecodeUnits(us[1..])
  }

  /** The encoding of section 2.1 of RFC 2781. */
  function EncodeScalar(r: Scalar): seq<Unit> {
    if r < 0x10000 then [r]
    else [0xD800 + (r - 0x10000) / 0x400, 0xDC00 + (r - 0x10000) % 0x400]
  }

  function EncodeScalars(rs: seq<Scalar>): seq<Unit> {
    if rs == [] then [] else EncodeScalar(rs[0]) + EncodeScalars(rs[1..])
  }

  lemma PairOfScalar(high: Unit, low: Unit)
    requires High(high) && Low(low)
    ensures var r := 0x10000 + (high - 0xD800) * 0x400 + (low - 0xDC00);
            0x10000 <= r < 0x110000 && EncodeScalar(r) == [high, low]
  {
  }

  lemma OneOfScalar(unit: Unit)
    requires !High(unit) && !Low(unit)
    ensures EncodeScalar(unit) == [unit]
  {
  }

  lemma PairOf(r: Scalar)
    requires r >= 0x10000
    ensures var us := EncodeScalar(r);
            && |us| == 2 && High(us[0]) && Low(us[1])
            && var high: int, low: int := us[0], us[1];
               r == 0x10000 + (high - 0xD800) * 0x400 + (low - 0xDC00)
  {
  }

  lemma {:induction false} DecodeOfEncodedScalars(rs: seq<Scalar>)
    ensures WellPaired(EncodeScalars(rs)) && DecodeUnits(EncodeScalars(rs)) == rs
  {
    hide EncodeScalar;
    if rs != [] {
      var rest := EncodeScalars(rs[1..]);
      DecodeOfEncodedScalars(rs[1..]);
      if rs[0] >= 0x10000 {
        PairOf(rs[0]);
        assert (EncodeScalar(rs[0]) + rest)[2..] == rest;
      } else {
        OneOfScalar(rs[0]);
        assert ([rs[0]] + rest)[1..] == rest;
      }
    }
  }

  lemma {:induction false} EncodeOfDecodedUnits(us: seq<Unit>)
    requires WellPaired(us)
    ensures EncodeScalars(DecodeUnits(us)) == us
  {
    hide EncodeScalar;
    if us != [] {
      var rs := DecodeUnits(us);
      if High(us[0]) {
        EncodeOfDecodedUnits(us[2..]);
        PairOfScalar(us[0], us[1]);
        assert rs[1..] == DecodeUnits(us[2..]);
        assert us == [us[0], us[1]] + us[2..];
      } else {
        EncodeOfDecodedUnits(us[1..]);
        OneOfScalar(us[0]);
        assert rs[1..] == DecodeUnits(us[1..]);
        assert us == [us[0]] + us[1..];
      }
    }
  }

  function Occurrences(s: seq<int>, v: int): nat {
    if s == [] then 0 else (if s[0] == v then 1 else 0) + Occurrences(s[1..], v)
  }

  /** Decoding well-paired units introduces no replacement character: as many come out as the
      input itself holds. */
  lemma {:induction false} NoReplacementIntroduced(us: seq<Unit>)
    requires WellPaired(us)
    ensures Occurrences(DecodeUnits(us), REPLACEMENT) == Occurrences(us, REPLACEMENT)
  {
    if us != [] {
      var rs := DecodeUnits(us);
      if High(us[0]) {
        NoReplacementIntroduced(us[2..]);
        assert rs[1..] == DecodeUnits(us[2..]);
        assert us[1..][1..] == us[2..];
      } else {
        NoReplacementIntroduced(us[1..]);
        assert rs[1..] == DecodeUnits(us[1..]);
      }
    }
  }

  // ---------------------------------------------------------------------------------------
  // decodeUTF16

  /** What decodeUTF16 answers. */
  function DecodeSpec(b: Str, order: Order): Decoded {
    if |b| % 2 != 0 then Err(OddLength)
    else if !WellPaired(Units(b, order)) then Err(Unpaired)
    else Ok(Encode(DecodeUnits(Units(b, order))))
  }

  method DecodeUTF16(b: Str, order: Order) returns (r: Decoded)
    ensures r == DecodeSpec(b, order)
  {
    if |b| % 2 != 0 {
      return Err(OddLength);
    }
    var units := new Unit[|b| / 2];
    for i := 0 to |b| / 2
      invariant forall k :: 0 <= k < i ==> units[k] == Units(b, order)[k]
    {
      units[i] := UnitOf(b[2 * i], b[2 * i + 1], order);
    }
    assert units[..] == Units(b, order);
    var i := 0;
    while i < units.Length
      invariant 0 <= i <= units.Length
      invariant units[..] == Units(b, order)
      invariant WellPaired(units[i..]) == WellPaired(units[..])
    {
      var u := units[i];
      assert units[i..][0] == u && units[i..][1..] == units[i + 1..];
      if High(u) {
        if i + 1 >= units.Length || !Low(units[i + 1]) {
          return Err(Unpaired);
        }
        assert units[i..][1] == units[i + 1] && units[i..][2..] == units[i + 2..];
        i := i + 1;
      } else if Low(u) {
        return Err(Unpaired);
      }
      i := i + 1;
    }
    return Ok(Encode(DecodeUnits(units[..])));
  }

  /** Acceptance and round trip: exactly the even-length, well-paired inputs decode; the result is
      valid UTF-8, and re-encoding its scalars gives back the same bytes. */
  lemma StrictDecodingRoundTrip(b: Str, order: Order)
    ensures DecodeSpec(b, order).Ok? <==> |b| % 2 == 0 && WellPaired(Units(b, order))
    ensures DecodeSpec(b, order).Ok? ==>
              var text := DecodeSpec(b, order).text;
              && Valid(text)
              && UnitBytes(EncodeScalars(Decode(text)), order) == b
              && Occurrences(Decode(text), REPLACEMENT) == Occurrences(Units(b, order), REPLACEMENT)
  {
    if DecodeSpec(b, order).Ok? {
      var us := Units(b, order);
      DecodeOfEncoded(DecodeUnits(us));
      EncodeOfDecodedUnits(us);
      BytesOfUnits(b, order);
      NoReplacementIntroduced(us);
    }
  }

  /** Every text has a UTF-16 form, and decoding it gives that text back. */
  lemma EveryTextDecodes(rs: seq<Scalar>, order: Order)
    ensures DecodeSpec(UnitBytes(EncodeScalars(rs), order), order) == Ok(Encode(rs))
  {
    DecodeOfEncodedScalars(rs);
    UnitsOfBytes(EncodeScalars(rs), order);
  }

  // ---------------------------------------------------------------------------------------
  // Normalize

  const BOM8: Str := [0xEF, 0xBB, 0xBF]
  const BOM16LE: Str := [0xFF, 0xFE]
  const BOM16BE: Str := [0xFE, 0xFF]
  const BOM32LE: Str := [0xFF, 0xFE, 0, 0]
  const BOM32BE: Str := [0, 0, 0xFE, 0xFF]

  function NormalizeSpec(raw: Str): Decoded {
    if BOM8 <= raw then (if Valid(raw[3..]) then Ok(raw[3..]) else Err(NotUtf8))
    else if BOM32LE <= raw || BOM32BE <= raw then Err(Utf32)
    else if BOM16LE <= raw then DecodeSpec(raw[2..], Little)
    else if BOM16BE <= raw then DecodeSpec(raw[2..], Big)
    else if Valid(raw) then Ok(raw) else Err(NotUtf8)
  }

  method Normalize(raw: Str) returns (r: Decoded)
    ensures r == NormalizeSpec(raw)
  {
    var body := raw;
    if BOM8 <= raw {
      body := raw[3..];
    } else if BOM32LE <= raw || BOM32BE <= raw {
      return Err(Utf32);
    } else if BOM16LE <= raw {
      r := DecodeUTF16(raw[2..], Little);
      return;
    } else if BOM16BE <= raw {
      r := DecodeUTF16(raw[2..], Big);
      return;
    }
    if !Valid(body) {
      return Err(NotUtf8);
    }
    return Ok(body);
  }

  lemma DecodedIsValid(b: Str, order: Order)
    ensures DecodeSpec(b, order).Ok? ==> Valid(DecodeSpec(b, order).text)
  {
    StrictDecodingRoundTrip(b, order);
  }

  /** Whatever the detected encoding, what comes out is valid UTF-8. */
  lemma NormalizedIsValid(raw: Str)
    ensures NormalizeSpec(raw).Ok? ==> Valid(NormalizeSpec(raw).text)
  {
    if |raw| >= 2 {
      DecodedIsValid(raw[2..], Little);
      DecodedIsValid(raw[2..], Big);
    }
  }

  lemma MarkedLittle(b: Str)
    ensures NormalizeSpec(BOM16LE + b) == if [0, 0] <= b then Err(Utf32) else DecodeSpec(b, Little)
  {
    var raw := BOM16LE + b;
    assert raw[0] == 0xFF && raw[1] == 0xFE;
    assert raw[2..] == b;
    assert BOM32LE == BOM16LE + [0, 0];
    assert [0, 0] <= b ==> raw[..4] == BOM16LE + b[..2];
    assert BOM32LE <= raw ==> raw[2..4] == b[..2] && [0, 0] == BOM32LE[2..4];
  }

  lemma MarkedBig(b: Str)
    ensures NormalizeSpec(BOM16BE + b) == DecodeSpec(b, Big)
  {
    var raw := BOM16BE + b;
    assert raw[0] == 0xFE && raw[1] == 0xFF;
    assert raw[2..] == b;
  }

  /** No valid text starts with a UTF-16 or UTF-32 byte-order mark. */
  lemma ValidIsUnmarked(text: Str)
    requires Valid(text)
    ensures !(BOM16LE <= text) && !(BOM16BE <= text) && !(BOM32BE <= text) && !(BOM32LE <= text)
  {
    if |text| >= 3 && text[0] == 0 && text[1] == 0 {
      assert Valid(text[1..]) && text[1..][0] == text[1];
      assert Valid(text[1..][1..]) && text[1..][1..][0] == text[2];
      assert text[2] != 0xFE;
    }
    assert text != [] ==> text[0] != 0xFF && text[0] != 0xFE;
  }

  /** Valid text passes through unmarked, but for a leading U+FEFF. */
  lemma Unmarked(rs: seq<Scalar>)
    requires rs == [] || rs[0] != 0xFEFF
    ensures NormalizeSpec(Encode(rs)) == Ok(Encode(rs))
  {
    var text := Encode(rs);
    DecodeOfEncoded(rs);
    ValidIsUnmarked(text);
    if rs != [] {
      FrontOfEncoded(rs[0], Encode(rs[1..]));
    }
  }

  lemma StartsWithZeroUnit(rs: seq<Scalar>)
    ensures [0, 0] <= UnitBytes(EncodeScalars(rs), Little) <==> rs != [] && rs[0] == 0
  {
    if rs != [] {
      var us := EncodeScalars(rs);
      var b := UnitBytes(us, Little);
      assert us[0] == EncodeScalar(rs[0])[0];
      assert b[0] == UnitByte(us, Little, 0) && b[1] == UnitByte(us, Little, 1);
    }
  }

  /** The four marked and unmarked spellings of one text. The little-endian UTF-16 spelling of a
      text that starts with U+0000 is refused: it starts with the UTF-32 byte-order mark. */
  lemma EverySpellingNormalizes(rs: seq<Scalar>)
    ensures NormalizeSpec(BOM8 + Encode(rs)) == Ok(Encode(rs))
    ensures NormalizeSpec(BOM16BE + UnitBytes(EncodeScalars(rs), Big)) == Ok(Encode(rs))
    ensures NormalizeSpec(BOM16LE + UnitBytes(EncodeScalars(rs), Little))
            == if rs != [] && rs[0] == 0 then Err(Utf32) else Ok(Encode(rs))
    ensures (rs == [] || rs[0] != 0xFEFF) ==> NormalizeSpec(Encode(rs)) == Ok(Encode(rs))
  {
    DecodeOfEncoded(rs);
    EveryTextDecodes(rs, Big);
    MarkedBig(UnitBytes(EncodeScalars(rs), Big));
    EveryTextDecodes(rs, Little);
    MarkedLittle(UnitBytes(EncodeScalars(rs), Little));
    StartsWithZeroUnit(rs);
    if rs == [] || rs[0] != 0xFEFF {
      Unmarked(rs);
    }
  }
}
