/** Python's `str.encode()` with its default codec, UTF-8, turning the
    code points of a string into octets; and the matching strict decoder.
    A Dafny `char` is a Unicode scalar value, so the model's strings hold
    no lone surrogates and encoding them never fails. */
module Utf8 {

  import opened Values

  /** The one to four octets of one code point. */
  function EncodeChar(c: char): (bs: seq<Byte>)
    ensures 1 <= |bs| <= 4
    ensures (c as int < 0x80) <==> |bs| == 1
  {
    var cp := c as int;
    if cp < 0x80 then [cp]
    else if cp < 0x800 then [0xC0 + cp / 64, 0x80 + cp % 64]
    else if cp < 0x10000 then [0xE0 + cp / 4096, 0x80 + (cp / 64) % 64, 0x80 + cp % 64]
    else [0xF0 + cp / 262144, 0x80 + (cp / 4096) % 64, 0x80 + (cp / 64) % 64, 0x80 + cp % 64]
  }

  /** `s.encode()`: the encodings of the code points, in order. */
  function Encode(s: string): (bs: seq<Byte>)
    ensures |bs| >= |s|
    decreases |s|
  {
    if |s| == 0 then [] else EncodeChar(s[0]) + Encode(s[1..])
  }

  predicate IsContinuation(b: Byte)
  {
    0x80 <= b < 0xC0
  }

  predicate IsScalar(cp: int)
  {
    0 <= cp < 0xD800 || 0xE000 <= cp < 0x110000
  }

  /** A lead octet and one continuation octet hold the code point's
      high and low bits. */
  lemma TwoBack(b0: int, b1: int, cp: int)
    requires 0xC0 <= b0 < 0xE0 && 0x80 <= b1 < 0xC0
    requires cp == (b0 - 0xC0) * 64 + (b1 - 0x80)
    ensures cp < 0x800 && 0xC0 + cp / 64 == b0 && 0x80 + cp % 64 == b1
  {
  }

  lemma ThreeBack(b0: int, b1: int, b2: int, cp: int)
    requires 0xE0 <= b0 < 0xF0 && 0x80 <= b1 < 0xC0 && 0x80 <= b2 < 0xC0
    requires cp == (b0 - 0xE0) * 4096 + (b1 - 0x80) * 64 + (b2 - 0x80)
    ensures cp < 0x10000 && 0xE0 + cp / 4096 == b0 && 0x80 + (cp / 64) % 64 == b1 && 0x80 + cp % 64 == b2
  {
    var a := (b0 - 0xE0) * 64 + (b1 - 0x80);
    assert cp == a * 64 + (b2 - 0x80);
    assert cp / 64 == a && cp % 64 == b2 - 0x80;
    assert a / 64 == b0 - 0xE0 && a % 64 == b1 - 0x80;
  }

  lemma FourBack(b0: int, b1: int, b2: int, b3: int, cp: int)
    requires 0xF0 <= b0 < 0xF8 && 0x80 <= b1 < 0xC0 && 0x80 <= b2 < 0xC0 && 0x80 <= b3 < 0xC0
    requires cp == (b0 - 0xF0) * 262144 + (b1 - 0x80) * 4096 + (b2 - 0x80) * 64 + (b3 - 0x80)
    ensures 0xF0 + cp / 262144 == b0 && 0x80 + (cp / 4096) % 64 == b1
    ensures 0x80 + (cp / 64) % 64 == b2 && 0x80 + cp % 64 == b3
  {
    var a := (b0 - 0xF0) * 64 + (b1 - 0x80);
    var b := a * 64 + (b2 - 0x80);
    assert cp == b * 64 + (b3 - 0x80);
    assert cp / 64 == b && cp % 64 == b3 - 0x80;
    assert b / 64 == a && b % 64 == b2 - 0x80;
    assert a / 64 == b0 - 0xF0 && a % 64 == b1 - 0x80;
    assert cp / 4096 == a by { assert cp == a * 4096 + (b % 64) * 64 + (b3 - 0x80); }
    assert cp / 262144 == b0 - 0xF0 by {
      assert cp == (b0 - 0xF0) * 262144 + ((b1 - 0x80) * 4096 + (b2 - 0x80) * 64 + (b3 - 0x80));
    }
  }

  /** The code point at the start of `bs` and the number of octets it
      takes; overlong forms, surrogates and values past U+10FFFF are
      rejected, so what is accepted is exactly the one encoding of the
      code point. */
  function DecodeChar(bs: seq<Byte>): (r: Option<(char, nat)>)
    ensures r.Some? ==> 1 <= r.value.1 <= |bs| && r.value.1 <= 4
    ensures r.Some? ==> EncodeChar(r.value.0) == bs[..r.value.1]
  {
    if |bs| == 0 then None
    else
      var b0: int := bs[0];
      if b0 < 0x80 then Some((b0 as char, 1))
      else if 0xC0 <= b0 < 0xE0 then
        if |bs| < 2 || !IsContinuation(bs[1]) then None
        else
          var cp: int := (b0 - 0xC0) * 64 + (bs[1] as int - 0x80);
          TwoBack(b0, bs[1], cp);
          if cp < 0x80 then None else Some((cp as char, 2))
      else if 0xE0 <= b0 < 0xF0 then
        if |bs| < 3 || !IsContinuation(bs[1]) || !IsContinuation(bs[2]) then None
        else
          var cp: int := (b0 - 0xE0) * 4096 + (bs[1] as int - 0x80) * 64 + (bs[2] as int - 0x80);
          ThreeBack(b0, bs[1], bs[2], cp);
          if cp < 0x800 || !IsScalar(cp) then None else Some((cp as char, 3))
      else if 0xF0 <= b0 < 0xF8 then
        if |bs| < 4 || !IsContinuation(bs[1]) || !IsContinuation(bs[2]) || !IsContinuation(bs[3]) then None
        else
          var cp: int := (b0 - 0xF0) * 262144 + (bs[1] as int - 0x80) * 4096 + (bs[2] as int - 0x80) * 64 + (bs[3] as int - 0x80);
          FourBack(b0, bs[1], bs[2], bs[3], cp);
          if cp < 0x10000 || cp >= 0x110000 then None else Some((cp as char, 4))
      else None
  }

  /** `bs.decode()`: the string the octets encode, or None when they are
      not well-formed UTF-8. */
  function Decode(bs: seq<Byte>): Option<string>
    decreases |bs|
  {
    if |bs| == 0 then Some("")
    else match DecodeChar(bs)
      case None => None
      case Some((c, k)) =>
        match Decode(bs[k..])
        case None => None
        case Some(rest) => Some([c] + rest)
  }

  lemma TwoOctets(cp: int)
    requires 0x80 <= cp < 0x800
    ensures 0xC2 <= 0xC0 + cp / 64 < 0xE0
    ensures (cp / 64) * 64 + cp % 64 == cp
  {
  }

  lemma ThreeOctets(cp: int)
    requires 0x800 <= cp < 0x10000
    ensures 0xE0 <= 0xE0 + cp / 4096 < 0xF0
    ensures (cp / 4096) * 4096 + ((cp / 64) % 64) * 64 + cp % 64 == cp
  {
    assert cp % 4096 == ((cp / 64) % 64) * 64 + cp % 64;
  }

  lemma FourOctets(cp: int)
    requires 0x10000 <= cp < 0x110000
    ensures 0xF0 <= 0xF0 + cp / 262144 < 0xF8
    ensures (cp / 262144) * 262144 + ((cp / 4096) % 64) * 4096 + ((cp / 64) % 64) * 64 + cp % 64 == cp
  {
    var a, r0 := cp / 64, cp % 64;
    var b, r1 := a / 64, a % 64;
    var c, r2 := b / 64, b % 64;
    assert cp / 4096 == b;
    assert cp / 262144 == c;
  }

  /** The octets of one code point decode back to it, whatever follows. */
  lemma DecodeEncodeChar(c: char, rest: seq<Byte>)
    ensures DecodeChar(EncodeChar(c) + rest) == Some((c, |EncodeChar(c)|))
  {
    var cp := c as int;
    var bs := EncodeChar(c) + rest;
    if cp < 0x80 {
    } else if cp < 0x800 {
      TwoOctets(cp);
    } else if cp < 0x10000 {
      ThreeOctets(cp);
    } else {
      FourOctets(cp);
    }
  }

  /** Decoding undoes encoding: `s.encode().decode() == s`. */
  lemma {:induction false} DecodeEncode(s: string)
    ensures Decode(Encode(s)) == Some(s)
    decreases |s|
  {
    if |s| > 0 {
      var head, tail := EncodeChar(s[0]), Encode(s[1..]);
      DecodeEncodeChar(s[0], tail);
      assert (head + tail)[|head|..] == tail;
      DecodeEncode(s[1..]);
      assert s == [s[0]] + s[1..];
    }
  }

  /** One step of a successful decode: a first code point whose
      encoding is the first `k` octets, then the decoding of the rest. */
  lemma DecodeStep(bs: seq<Byte>) returns (c: char, k: nat, tail: string)
    requires |bs| > 0 && Decode(bs).Some?
    ensures 1 <= k <= |bs| && EncodeChar(c) == bs[..k]
    ensures Decode(bs[k..]) == Some(tail) && Decode(bs).value == [c] + tail
  {
    c, k := DecodeChar(bs).value.0, DecodeChar(bs).value.1;
    tail := Decode(bs[k..]).value;
  }

  /** A code point's octets followed by the encoding of the rest. */
  lemma JoinEncoding(bs: seq<Byte>, k: nat, c: char, tail: string)
    requires k <= |bs| && EncodeChar(c) == bs[..k] && Encode(tail) == bs[k..]
    ensures Encode([c] + tail) == bs
  {
    assert ([c] + tail)[1..] == tail;
    assert bs == bs[..k] + bs[k..];
  }

  /** Encoding undoes decoding: octets that decode are the encoding of
      what they decode to, so the decoder accepts one form per text. */
  lemma {:induction false} EncodeDecode(bs: seq<Byte>)
    requires Decode(bs).Some?
    ensures Encode(Decode(bs).value) == bs
    decreases |bs|
  {
    if |bs| > 0 {
      var c, k, tail := DecodeStep(bs);
      EncodeDecode(bs[k..]);
      JoinEncoding(bs, k, c, tail);
    }
  }

  /** An ASCII string encodes to one octet per character, so its octet
      count is its length. */
  lemma {:induction false} EncodeAsciiLength(s: string)
    requires forall i :: 0 <= i < |s| ==> s[i] as int < 0x80
    ensures |Encode(s)| == |s|
    decreases |s|
  {
    if |s| > 0 {
      EncodeAsciiLength(s[1..]);
    }
  }
}
