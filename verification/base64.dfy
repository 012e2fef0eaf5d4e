/** Base64 as section 4 of RFC 4648 defines it (the alphabet `A-Z a-z
    0-9 + /` with `=` padding), which Python's `base64.b64encode`
    implements; the decoder is strict, so that encoding and decoding are
    inverse in both directions. */
module Base64 {

  import opened Values

  /** A Base64 digit value. */
  type Sextet = x: int | 0 <= x < 64

  predicate IsAlphabetChar(c: char)
  {
    'A' <= c <= 'Z' || 'a' <= c <= 'z' || '0' <= c <= '9' || c == '+' || c == '/'
  }

  /** The character for a digit value (Table 1 of RFC 4648). */
  function CharOf(i: Sextet): (c: char)
    ensures IsAlphabetChar(c)
  {
    if i < 26 then ('A' as int + i) as char
    else if i < 52 then ('a' as int + (i - 26)) as char
    else if i < 62 then ('0' as int + (i - 52)) as char
    else if i == 62 then '+'
    else '/'
  }

  /** The digit value of an alphabet character; the inverse of CharOf. */
  function ValueOf(c: char): (i: Sextet)
    requires IsAlphabetChar(c)
    ensures CharOf(i) == c
  {
    if 'A' <= c <= 'Z' then c as int - 'A' as int
    else if 'a' <= c <= 'z' then c as int - 'a' as int + 26
    else if '0' <= c <= '9' then c as int - '0' as int + 52
    else if c == '+' then 62
    else 63
  }

  lemma ValueOfCharOf(i: Sextet)
    ensures ValueOf(CharOf(i)) == i
  {
  }

  /** The four characters of one full 24-bit group. */
  function EncodeGroup(b0: Byte, b1: Byte, b2: Byte): seq<char>
  {
    [CharOf(b0 / 4), CharOf((b0 % 4) * 16 + b1 / 16), CharOf((b1 % 16) * 4 + b2 / 64), CharOf(b2 % 64)]
  }

  /** `base64.b64encode`: groups of three octets become four characters;
      a final group of one or two octets is padded with `==` or `=`. */
  function Encode(bs: seq<Byte>): (s: string)
    ensures |s| == 4 * ((|bs| + 2) / 3)
    ensures |bs| > 0 ==> |s| >= 4
    decreases |bs|
  {
    if |bs| == 0 then ""
    else if |bs| == 1 then [CharOf(bs[0] / 4), CharOf((bs[0] % 4) * 16), '=', '=']
    else if |bs| == 2 then [CharOf(bs[0] / 4), CharOf((bs[0] % 4) * 16 + bs[1] / 16), CharOf((bs[1] % 16) * 4), '=']
    else
      EncodedLengthStep(|bs|);
      EncodeGroup(bs[0], bs[1], bs[2]) + Encode(bs[3..])
  }

  /** Three more octets take four more characters. */
  lemma EncodedLengthStep(n: int)
    requires n >= 3
    ensures 4 * ((n + 2) / 3) == 4 + 4 * ((n - 3 + 2) / 3)
  {
  }

  /** Every character of an encoding is in the Base64 alphabet, except
      `=`, which appears only in the last two positions. */
  lemma {:induction false} EncodeAlphabet(bs: seq<Byte>)
    ensures forall i :: 0 <= i < |Encode(bs)| ==>
      IsAlphabetChar(Encode(bs)[i]) || (Encode(bs)[i] == '=' && i >= |Encode(bs)| - 2)
    decreases |bs|
  {
    if |bs| >= 3 {
      EncodeAlphabet(bs[3..]);
      var g, rest := EncodeGroup(bs[0], bs[1], bs[2]), Encode(bs[3..]);
      assert Encode(bs) == g + rest;
      forall i | 0 <= i < |g + rest|
        ensures IsAlphabetChar((g + rest)[i]) || ((g + rest)[i] == '=' && i >= |g + rest| - 2)
      {
        if i >= 4 {
          assert (g + rest)[i] == rest[i - 4];
        }
      }
    }
  }

  /** Four alphabet characters back to three octets. */
  function DecodeGroup(q: string): Option<seq<Byte>>
    requires |q| == 4
  {
    if IsAlphabetChar(q[0]) && IsAlphabetChar(q[1]) && IsAlphabetChar(q[2]) && IsAlphabetChar(q[3]) then
      var i0: int, i1: int, i2: int, i3: int := ValueOf(q[0]), ValueOf(q[1]), ValueOf(q[2]), ValueOf(q[3]);
      Some([i0 * 4 + i1 / 16, (i1 % 16) * 16 + i2 / 4, (i2 % 4) * 64 + i3])
    else None
  }

  /** The last quantum, which may carry one or two padding characters;
      bits that padding leaves unused must be zero. */
  function DecodeFinal(q: string): Option<seq<Byte>>
    requires |q| == 4
  {
    if q[2] == '=' && q[3] == '=' then
      if IsAlphabetChar(q[0]) && IsAlphabetChar(q[1]) && ValueOf(q[1]) % 16 == 0 then
        Some([ValueOf(q[0]) * 4 + ValueOf(q[1]) / 16])
      else None
    else if q[3] == '=' then
      if IsAlphabetChar(q[0]) && IsAlphabetChar(q[1]) && IsAlphabetChar(q[2]) && ValueOf(q[2]) % 4 == 0 then
        var i0: int, i1: int, i2: int := ValueOf(q[0]), ValueOf(q[1]), ValueOf(q[2]);
        Some([i0 * 4 + i1 / 16, (i1 % 16) * 16 + i2 / 4])
      else None
    else DecodeGroup(q)
  }

  /** Strict decoding: the length is a multiple of four, only the last
      quantum may hold padding, and padding bits are zero. */
  function Decode(s: string): Option<seq<Byte>>
    decreases |s|
  {
    if |s| == 0 then Some([])
    else if |s| < 4 then None
    else if |s| == 4 then DecodeFinal(s)
    else match DecodeGroup(s[..4])
      case None => None
      case Some(g) =>
        match Decode(s[4..])
        case None => None
        case Some(rest) => Some(g + rest)
  }

  /** The bit arithmetic of one group: splitting 24 bits into four
      sextets and joining them again gives back the three octets. */
  lemma SplitJoin(b0: Byte, b1: Byte, b2: Byte)
    ensures (b0 / 4) * 4 + ((b0 % 4) * 16 + b1 / 16) / 16 == b0
    ensures (((b0 % 4) * 16 + b1 / 16) % 16) * 16 + ((b1 % 16) * 4 + b2 / 64) / 4 == b1
    ensures (((b1 % 16) * 4 + b2 / 64) % 4) * 64 + b2 % 64 == b2
  {
  }

  lemma DecodeEncodeGroup(b0: Byte, b1: Byte, b2: Byte)
    ensures DecodeGroup(EncodeGroup(b0, b1, b2)) == Some([b0, b1, b2])
  {
    var q := EncodeGroup(b0, b1, b2);
    var i0: Sextet, i1: Sextet, i2: Sextet, i3: Sextet := b0 / 4, (b0 % 4) * 16 + b1 / 16, (b1 % 16) * 4 + b2 / 64, b2 % 64;
    ValueOfCharOf(i0);
    ValueOfCharOf(i1);
    ValueOfCharOf(i2);
    ValueOfCharOf(i3);
    assert ValueOf(q[0]) == i0 && ValueOf(q[1]) == i1 && ValueOf(q[2]) == i2 && ValueOf(q[3]) == i3;
    SplitJoin(b0, b1, b2);
  }

  lemma DecodeEncodeTwo(b0: Byte, b1: Byte)
    ensures DecodeFinal(Encode([b0, b1])) == Some([b0, b1])
  {
    var q := Encode([b0, b1]);
    var i0: Sextet, i1: Sextet, i2: Sextet := b0 / 4, (b0 % 4) * 16 + b1 / 16, (b1 % 16) * 4;
    ValueOfCharOf(i0);
    ValueOfCharOf(i1);
    ValueOfCharOf(i2);
    assert q == [CharOf(i0), CharOf(i1), CharOf(i2), '='];
    SplitJoin(b0, b1, 0);
  }

  lemma DecodeEncodeOne(b0: Byte)
    ensures DecodeFinal(Encode([b0])) == Some([b0])
  {
    var q := Encode([b0]);
    var i0: Sextet, i1: Sextet := b0 / 4, (b0 % 4) * 16;
    ValueOfCharOf(i0);
    ValueOfCharOf(i1);
    assert q == [CharOf(i0), CharOf(i1), '=', '='];
    SplitJoin(b0, 0, 0);
  }

  /** A full group followed by a non-empty remainder decodes group by group. */
  lemma DecodeAppend(g: string, rest: string)
    requires |g| == 4 && |rest| > 0
    ensures Decode(g + rest) ==
      match DecodeGroup(g)
      case None => None
      case Some(x) => (match Decode(rest) case None => None case Some(y) => Some(x + y))
  {
    assert (g + rest)[..4] == g;
    assert (g + rest)[4..] == rest;
  }

  /** Encoding a sequence of three or more octets starts with the
      encoding of its first group. */
  lemma EncodeFirstGroup(bs: seq<Byte>)
    requires |bs| >= 3
    ensures Encode(bs) == EncodeGroup(bs[0], bs[1], bs[2]) + Encode(bs[3..])
  {
  }

  /** Decoding undoes encoding: `b64decode(b64encode(b)) == b`. */
  lemma {:induction false} DecodeEncode(bs: seq<Byte>)
    ensures Decode(Encode(bs)) == Some(bs)
    decreases |bs|
  {
    if |bs| == 1 {
      DecodeEncodeOne(bs[0]);
      assert bs == [bs[0]];
    } else if |bs| == 2 {
      DecodeEncodeTwo(bs[0], bs[1]);
      assert bs == [bs[0], bs[1]];
    } else if |bs| >= 3 {
      DecodeEncode(bs[3..]);
      DecodeEncodeGroups(bs);
    }
  }

  lemma DecodeEncodeGroups(bs: seq<Byte>)
    requires |bs| >= 3
    requires Decode(Encode(bs[3..])) == Some(bs[3..])
    ensures Decode(Encode(bs)) == Some(bs)
  {
    if |bs| == 3 {
      EncodeThree(bs);
      DecodeLastGroup(bs[0], bs[1], bs[2]);
      FirstThree(bs);
    } else {
      var y := bs[3..];
      EncodeFirstGroup(bs);
      PrependGroup(bs[0], bs[1], bs[2], Encode(y), y);
      FirstThree(bs);
    }
  }

  /** A sequence of three or more octets is its first three followed by the rest. */
  lemma FirstThree(bs: seq<Byte>)
    requires |bs| >= 3
    ensures [bs[0], bs[1], bs[2]] + bs[3..] == bs
    ensures |bs| == 3 ==> [bs[0], bs[1], bs[2]] == bs
  {
  }

  /** A full group in front of a decodable non-empty remainder. */
  lemma PrependGroup(b0: Byte, b1: Byte, b2: Byte, e: string, y: seq<Byte>)
    requires |e| > 0 && Decode(e) == Some(y)
    ensures Decode(EncodeGroup(b0, b1, b2) + e) == Some([b0, b1, b2] + y)
  {
    DecodeEncodeGroup(b0, b1, b2);
    DecodeAppend(EncodeGroup(b0, b1, b2), e);
  }

  lemma DecodeLastGroup(b0: Byte, b1: Byte, b2: Byte)
    ensures Decode(EncodeGroup(b0, b1, b2)) == Some([b0, b1, b2])
  {
    var g := EncodeGroup(b0, b1, b2);
    assert g[2] != '=' && g[3] != '=';
    assert Decode(g) == DecodeFinal(g) == DecodeGroup(g);
    DecodeEncodeGroup(b0, b1, b2);
  }

  /** Joining sextets into octets and splitting them again, one octet at a time. */
  lemma JoinSplitFirst(i0: Sextet, i1: Sextet)
    ensures 0 <= i0 * 4 + i1 / 16 < 256
    ensures (i0 * 4 + i1 / 16) / 4 == i0 && (i0 * 4 + i1 / 16) % 4 == i1 / 16
  {
  }

  lemma JoinSplitSecond(i1: Sextet, i2: Sextet)
    ensures 0 <= (i1 % 16) * 16 + i2 / 4 < 256
    ensures ((i1 % 16) * 16 + i2 / 4) / 16 == i1 % 16 && ((i1 % 16) * 16 + i2 / 4) % 16 == i2 / 4
  {
  }

  lemma JoinSplitThird(i2: Sextet, i3: Sextet)
    ensures 0 <= (i2 % 4) * 64 + i3 < 256
    ensures ((i2 % 4) * 64 + i3) / 64 == i2 % 4 && ((i2 % 4) * 64 + i3) % 64 == i3
  {
  }

  /** The arithmetic of a full group, of two octets and of one octet:
      the octets the sextets join into split back into the sextets. */
  lemma JoinSplitGroup(i0: Sextet, i1: Sextet, i2: Sextet, i3: Sextet)
    ensures var b0, b1, b2 := i0 * 4 + i1 / 16, (i1 % 16) * 16 + i2 / 4, (i2 % 4) * 64 + i3;
      0 <= b0 < 256 && 0 <= b1 < 256 && 0 <= b2 < 256 &&
      b0 / 4 == i0 && (b0 % 4) * 16 + b1 / 16 == i1 && (b1 % 16) * 4 + b2 / 64 == i2 && b2 % 64 == i3
  {
    JoinSplitFirst(i0, i1);
    JoinSplitSecond(i1, i2);
    JoinSplitThird(i2, i3);
    assert i1 == (i1 / 16) * 16 + i1 % 16;
    assert i2 == (i2 / 4) * 4 + i2 % 4;
  }

  lemma JoinSplitTwo(i0: Sextet, i1: Sextet, i2: Sextet)
    requires i2 % 4 == 0
    ensures var b0, b1 := i0 * 4 + i1 / 16, (i1 % 16) * 16 + i2 / 4;
      0 <= b0 < 256 && 0 <= b1 < 256 && b0 / 4 == i0 && (b0 % 4) * 16 + b1 / 16 == i1 && (b1 % 16) * 4 == i2
  {
    JoinSplitFirst(i0, i1);
    JoinSplitSecond(i1, i2);
    assert i1 == (i1 / 16) * 16 + i1 % 16;
    assert i2 == (i2 / 4) * 4;
  }

  lemma JoinSplitOne(i0: Sextet, i1: Sextet)
    requires i1 % 16 == 0
    ensures var b0 := i0 * 4 + i1 / 16; 0 <= b0 < 256 && b0 / 4 == i0 && (b0 % 4) * 16 == i1
  {
    JoinSplitFirst(i0, i1);
    assert i1 == (i1 / 16) * 16;
  }

  /** The characters of a full group, of two octets and of one octet,
      given the sextets they split into. */
  lemma EncodeGroupOf(b0: Byte, b1: Byte, b2: Byte, i0: Sextet, i1: Sextet, i2: Sextet, i3: Sextet)
    requires b0 / 4 == i0 && (b0 % 4) * 16 + b1 / 16 == i1 && (b1 % 16) * 4 + b2 / 64 == i2 && b2 % 64 == i3
    ensures EncodeGroup(b0, b1, b2) == [CharOf(i0), CharOf(i1), CharOf(i2), CharOf(i3)]
  {
  }

  lemma EncodeTwoOctets(b0: Byte, b1: Byte, i0: Sextet, i1: Sextet, i2: Sextet)
    requires b0 / 4 == i0 && (b0 % 4) * 16 + b1 / 16 == i1 && (b1 % 16) * 4 == i2
    ensures Encode([b0, b1]) == [CharOf(i0), CharOf(i1), CharOf(i2), '=']
  {
  }

  lemma EncodeOneOctet(b0: Byte, i0: Sextet, i1: Sextet)
    requires b0 / 4 == i0 && (b0 % 4) * 16 == i1
    ensures Encode([b0]) == [CharOf(i0), CharOf(i1), '=', '=']
  {
  }

  /** Four alphabet characters are the characters of their own values. */
  lemma CharsOfValues(q: string)
    requires |q| == 4 && IsAlphabetChar(q[0]) && IsAlphabetChar(q[1])
    requires q[2] == '=' || IsAlphabetChar(q[2])
    requires q[3] == '=' || IsAlphabetChar(q[3])
    ensures IsAlphabetChar(q[2]) && IsAlphabetChar(q[3]) ==>
      [CharOf(ValueOf(q[0])), CharOf(ValueOf(q[1])), CharOf(ValueOf(q[2])), CharOf(ValueOf(q[3]))] == q
    ensures IsAlphabetChar(q[2]) && q[3] == '=' ==>
      [CharOf(ValueOf(q[0])), CharOf(ValueOf(q[1])), CharOf(ValueOf(q[2])), '='] == q
    ensures q[2] == '=' && q[3] == '=' ==> [CharOf(ValueOf(q[0])), CharOf(ValueOf(q[1])), '=', '='] == q
  {
  }

  lemma EncodeDecodeGroup(q: string)
    requires |q| == 4 && DecodeGroup(q).Some?
    ensures var g := DecodeGroup(q).value; |g| == 3 && EncodeGroup(g[0], g[1], g[2]) == q
  {
    var g := DecodeGroup(q).value;
    var i0, i1, i2, i3 := ValueOf(q[0]), ValueOf(q[1]), ValueOf(q[2]), ValueOf(q[3]);
    JoinSplitGroup(i0, i1, i2, i3);
    EncodeGroupOf(g[0], g[1], g[2], i0, i1, i2, i3);
    CharsOfValues(q);
  }

  lemma EncodeDecodeTwo(q: string, bs: seq<Byte>)
    requires |q| == 4 && q[3] == '=' && q[2] != '=' && DecodeFinal(q) == Some(bs)
    ensures Encode(bs) == q
  {
    var i0, i1, i2 := ValueOf(q[0]), ValueOf(q[1]), ValueOf(q[2]);
    JoinSplitTwo(i0, i1, i2);
    EncodeTwoOctets(bs[0], bs[1], i0, i1, i2);
    CharsOfValues(q);
  }

  lemma EncodeDecodeOne(q: string, bs: seq<Byte>)
    requires |q| == 4 && q[2] == '=' && q[3] == '=' && DecodeFinal(q) == Some(bs)
    ensures Encode(bs) == q
  {
    var i0, i1 := ValueOf(q[0]), ValueOf(q[1]);
    JoinSplitOne(i0, i1);
    EncodeOneOctet(bs[0], i0, i1);
    CharsOfValues(q);
  }

  /** Three octets encode to exactly one group. */
  lemma EncodeThree(bs: seq<Byte>)
    requires |bs| == 3
    ensures Encode(bs) == EncodeGroup(bs[0], bs[1], bs[2])
  {
    EncodeFirstGroup(bs);
    assert Encode(bs[3..]) == [];
  }

  lemma EncodeDecodeFinal(q: string)
    requires |q| == 4 && DecodeFinal(q).Some?
    ensures Encode(DecodeFinal(q).value) == q
  {
    if q[2] == '=' && q[3] == '=' {
      EncodeDecodeOne(q, DecodeFinal(q).value);
    } else if q[3] == '=' {
      EncodeDecodeTwo(q, DecodeFinal(q).value);
    } else {
      EncodeDecodeGroup(q);
      EncodeThree(DecodeGroup(q).value);
    }
  }

  /** A group of three octets in front of the rest encodes to the group's
      characters in front of the rest's encoding. */
  lemma EncodeGroupThenRest(g: seq<Byte>, rest: seq<Byte>)
    requires |g| == 3
    ensures Encode(g + rest) == EncodeGroup(g[0], g[1], g[2]) + Encode(rest)
  {
    EncodeFirstGroup(g + rest);
    assert (g + rest)[3..] == rest;
  }

  /** Encoding undoes decoding: every string the strict decoder accepts
      is the canonical encoding of what it decodes to. */
  lemma {:induction false} EncodeDecode(s: string)
    requires Decode(s).Some?
    ensures Encode(Decode(s).value) == s
    decreases |s|
  {
    if |s| == 4 {
      EncodeDecodeFinal(s);
    } else if |s| > 4 {
      var g := DecodeGroup(s[..4]).value;
      var rest := Decode(s[4..]).value;
      EncodeDecodeGroup(s[..4]);
      EncodeDecode(s[4..]);
      DecodeAppend(s[..4], s[4..]);
      EncodeGroupThenRest(g, rest);
      assert s == s[..4] + s[4..];
    }
  }
}
