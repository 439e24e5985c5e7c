/** Base64 with the standard alphabet and `=` padding (section 4 of RFC 4648),
    as Go's `base64.StdEncoding.EncodeToString` produces it, together with the
    decoding that inverts it. */
module Base64 {
  import opened Prelude

  /** Table 1 of RFC 4648: the character for a 6-bit value. */
  function Sextet(n: int): (c: char)
    requires 0 <= n < 64
  {
    if n < 26 then (65 + n) as char        // 'A'..'Z'
    else if n < 52 then (97 + n - 26) as char   // 'a'..'z'
    else if n < 62 then (48 + n - 52) as char   // '0'..'9'
    else if n == 62 then '+'
    else '/'
  }

  predicate IsAlphabet(c: char) {
    ('A' <= c <= 'Z') || ('a' <= c <= 'z') || ('0' <= c <= '9') || c == '+' || c == '/'
  }

  /** The 6-bit value a character of the alphabet stands for. */
  function SextetValue(c: char): (r: Option<int>)
    ensures r.Some? <==> IsAlphabet(c)
    ensures r.Some? ==> 0 <= r.value < 64 && Sextet(r.value) == c
  {
    if 'A' <= c <= 'Z' then Some(c as int - 65)
    else if 'a' <= c <= 'z' then Some(c as int - 97 + 26)
    else if '0' <= c <= '9' then Some(c as int - 48 + 52)
    else if c == '+' then Some(62)
    else if c == '/' then Some(63)
    else None
  }

  lemma SextetValueOfSextet(n: int)
    requires 0 <= n < 64
    ensures IsAlphabet(Sextet(n))
    ensures SextetValue(Sextet(n)) == Some(n)
  {
  }

  function Block3(b0: byte, b1: byte, b2: byte): string {
    [Sextet(b0 as int / 4), Sextet((b0 as int % 4) * 16 + b1 as int / 16),
     Sextet((b1 as int % 16) * 4 + b2 as int / 64), Sextet(b2 as int % 64)]
  }

  function Block2(b0: byte, b1: byte): string {
    [Sextet(b0 as int / 4), Sextet((b0 as int % 4) * 16 + b1 as int / 16),
     Sextet((b1 as int % 16) * 4), '=']
  }

  function Block1(b0: byte): string {
    [Sextet(b0 as int / 4), Sextet((b0 as int % 4) * 16), '=', '=']
  }

  /** The character stands for a 6-bit value that is a multiple of `m`: its
      low bits are zero. */
  predicate LowBitsZero(c: char, m: int)
    requires m > 0
  {
    SextetValue(c).Some? && SextetValue(c).value % m == 0
  }

  /** Section 3.5 of RFC 4648: the bits of the character before the padding
      that carry no data are zero. A group `xx==` carries 8 of the 12 bits of
      its first two characters, and a group `xxx=` carries 16 of 18. */
  predicate ZeroPadBits(s: string) {
    |s| >= 4 ==>
      (s[|s| - 2] == '=' ==> LowBitsZero(s[|s| - 3], 16))
      && (s[|s| - 2] != '=' && s[|s| - 1] == '=' ==> LowBitsZero(s[|s| - 2], 4))
  }

  /** `base64.StdEncoding.EncodeToString`: every three bytes become four
      characters; a final group of one or two bytes is padded with `=`, and
      the padding bits are zero. */
  function Encode(b: seq<byte>): (s: string)
    ensures |s| == 4 * ((|b| + 2) / 3)
    ensures forall i | 0 <= i < |s| :: IsAlphabet(s[i]) || s[i] == '='
    ensures ZeroPadBits(s)
    decreases |b|
  {
    if |b| == 0 then ""
    else if |b| == 1 then
      Block1PadBits(b[0]);
      Block1(b[0])
    else if |b| == 2 then
      Block2PadBits(b[0], b[1]);
      Block2(b[0], b[1])
    else
      var rest := Encode(b[3..]);
      EncodeGroupThenRest(b[0], b[1], b[2], rest, |b| - 3);
      Block3(b[0], b[1], b[2]) + rest
  }

  lemma Block1PadBits(b0: byte)
    ensures forall i | 0 <= i < 4 :: IsAlphabet(Block1(b0)[i]) || Block1(b0)[i] == '='
    ensures ZeroPadBits(Block1(b0))
  {
    SextetValueOfSextet(b0 as int / 4);
    SextetValueOfSextet((b0 as int % 4) * 16);
  }

  lemma Block2PadBits(b0: byte, b1: byte)
    ensures forall i | 0 <= i < 4 :: IsAlphabet(Block2(b0, b1)[i]) || Block2(b0, b1)[i] == '='
    ensures ZeroPadBits(Block2(b0, b1))
  {
    SextetValueOfSextet(b0 as int / 4);
    SextetValueOfSextet((b0 as int % 4) * 16 + b1 as int / 16);
    SextetValueOfSextet((b1 as int % 16) * 4);
  }

  lemma Block3PadBits(b0: byte, b1: byte, b2: byte)
    ensures forall i | 0 <= i < 4 :: IsAlphabet(Block3(b0, b1, b2)[i])
    ensures ZeroPadBits(Block3(b0, b1, b2))
  {
    SextetValueOfSextet(b0 as int / 4);
    SextetValueOfSextet((b0 as int % 4) * 16 + b1 as int / 16);
    SextetValueOfSextet((b1 as int % 16) * 4 + b2 as int / 64);
    SextetValueOfSextet(b2 as int % 64);
  }

  /** A full group in front of the encoding of `n` bytes is an encoding of
      `n + 3` bytes: its length, its characters and its padding bits are as
      `Encode` promises. */
  lemma EncodeGroupThenRest(b0: byte, b1: byte, b2: byte, rest: string, n: nat)
    requires |rest| == 4 * ((n + 2) / 3)
    requires forall i | 0 <= i < |rest| :: IsAlphabet(rest[i]) || rest[i] == '='
    requires ZeroPadBits(rest)
    ensures |Block3(b0, b1, b2) + rest| == 4 * ((n + 3 + 2) / 3)
    ensures forall i | 0 <= i < |Block3(b0, b1, b2) + rest| ::
              IsAlphabet((Block3(b0, b1, b2) + rest)[i]) || (Block3(b0, b1, b2) + rest)[i] == '='
    ensures ZeroPadBits(Block3(b0, b1, b2) + rest)
  {
    var q := Block3(b0, b1, b2);
    Block3PadBits(b0, b1, b2);
    var s := q + rest;
    assert forall i | 4 <= i < |s| :: s[i] == rest[i - 4];
    if |rest| == 0 {
      assert s == q;
    }
  }

  /** Decodes one group of four characters into one to three bytes; `=` may
      only stand in the last one or two places. */
  function DecodeQuad(q: string): (r: Option<seq<byte>>)
    requires |q| == 4
    ensures r.Some? ==> 1 <= |r.value| <= 3
  {
    var v0 := SextetValue(q[0]);
    var v1 := SextetValue(q[1]);
    var v2 := SextetValue(q[2]);
    var v3 := SextetValue(q[3]);
    if v0.None? || v1.None? then None
    else
      var x0 := v0.value * 4 + v1.value / 16;
      if q[2] == '=' && q[3] == '=' then Some([x0 as byte])
      else if v2.None? then None
      else
        var x1 := (v1.value % 16) * 16 + v2.value / 4;
        if q[3] == '=' then Some([x0 as byte, x1 as byte])
        else if v3.None? then None
        else Some([x0 as byte, x1 as byte, ((v2.value % 4) * 64 + v3.value) as byte])
  }

  /** Decoding of padded standard base64: groups of four characters, padding
      allowed in the final group only. */
  function Decode(s: string): Option<seq<byte>>
    decreases |s|
  {
    if |s| == 0 then Some([])
    else if |s| < 4 then None
    else
      match DecodeQuad(s[..4])
      case None => None
      case Some(head) =>
        if |s| == 4 then Some(head)
        else if |head| < 3 then None
        else
          match Decode(s[4..])
          case None => None
          case Some(tail) => Some(head + tail)
  }

  lemma Block3Decodes(b0: byte, b1: byte, b2: byte)
    ensures DecodeQuad(Block3(b0, b1, b2)) == Some([b0, b1, b2])
  {
    var q := Block3(b0, b1, b2);
    SextetValueOfSextet(b0 as int / 4);
    SextetValueOfSextet((b0 as int % 4) * 16 + b1 as int / 16);
    SextetValueOfSextet((b1 as int % 16) * 4 + b2 as int / 64);
    SextetValueOfSextet(b2 as int % 64);
  }

  lemma Block2Decodes(b0: byte, b1: byte)
    ensures DecodeQuad(Block2(b0, b1)) == Some([b0, b1])
  {
    SextetValueOfSextet(b0 as int / 4);
    SextetValueOfSextet((b0 as int % 4) * 16 + b1 as int / 16);
    SextetValueOfSextet((b1 as int % 16) * 4);
  }

  lemma Block1Decodes(b0: byte)
    ensures DecodeQuad(Block1(b0)) == Some([b0])
  {
    SextetValueOfSextet(b0 as int / 4);
    SextetValueOfSextet((b0 as int % 4) * 16);
  }

  /** A full group followed by a non-empty decodable remainder decodes to
      the group's three bytes followed by the remainder's bytes. */
  lemma DecodeFullGroup(q: string, rest: string, head: seq<byte>, tail: seq<byte>)
    requires |q| == 4 && DecodeQuad(q) == Some(head) && |head| == 3
    requires |rest| > 0 && Decode(rest) == Some(tail)
    ensures Decode(q + rest) == Some(head + tail)
  {
    var s := q + rest;
    assert s[..4] == q;
    assert s[4..] == rest;
  }

  /** A single final group decodes on its own. */
  lemma DecodeLastGroup(q: string, head: seq<byte>)
    requires |q| == 4 && DecodeQuad(q) == Some(head)
    ensures Decode(q) == Some(head)
  {
    assert q[..4] == q;
  }

  lemma EncodeOneByte(b: seq<byte>)
    requires |b| == 1
    ensures Decode(Encode(b)) == Some(b)
  {
    assert Encode(b) == Block1(b[0]);
    Block1Decodes(b[0]);
    DecodeLastGroup(Block1(b[0]), [b[0]]);
    assert b == [b[0]];
  }

  lemma EncodeTwoBytes(b: seq<byte>)
    requires |b| == 2
    ensures Decode(Encode(b)) == Some(b)
  {
    assert Encode(b) == Block2(b[0], b[1]);
    Block2Decodes(b[0], b[1]);
    DecodeLastGroup(Block2(b[0], b[1]), [b[0], b[1]]);
    assert b == [b[0], b[1]];
  }

  lemma EncodeThreeBytes(b: seq<byte>)
    requires |b| == 3
    ensures Decode(Encode(b)) == Some(b)
  {
    var q := Block3(b[0], b[1], b[2]);
    assert Encode(b[3..]) == "";
    assert Encode(b) == q + "";
    assert q + "" == q;
    Block3Decodes(b[0], b[1], b[2]);
    DecodeLastGroup(q, [b[0], b[1], b[2]]);
    assert b == [b[0], b[1], b[2]];
  }

  /** Decoding undoes the encoding for every byte string. */
  lemma {:induction false} DecodeEncode(b: seq<byte>)
    ensures Decode(Encode(b)) == Some(b)
    decreases |b|
  {
    if |b| == 1 {
      EncodeOneByte(b);
    } else if |b| == 2 {
      EncodeTwoBytes(b);
    } else if |b| == 3 {
      EncodeThreeBytes(b);
    } else if |b| > 3 {
      DecodeEncode(b[3..]);
      EncodeLonger(b);
    }
  }

  /** One step of the round trip: a string longer than one group decodes
      once its tail after the first three bytes does. */
  lemma EncodeLonger(b: seq<byte>)
    requires |b| > 3 && Decode(Encode(b[3..])) == Some(b[3..])
    ensures Decode(Encode(b)) == Some(b)
  {
    var q := Block3(b[0], b[1], b[2]);
    var rest := Encode(b[3..]);
    EncodeSplit(b);
    Block3Decodes(b[0], b[1], b[2]);
    DecodeFullGroup(q, rest, [b[0], b[1], b[2]], b[3..]);
    ThreeAndRest(b);
  }

  lemma ThreeAndRest(b: seq<byte>)
    requires |b| >= 3
    ensures b == [b[0], b[1], b[2]] + b[3..]
  {
  }

  lemma EncodeSplit(b: seq<byte>)
    requires |b| > 3
    ensures Encode(b) == Block3(b[0], b[1], b[2]) + Encode(b[3..])
  {
  }

  /** The test vectors of section 10 of RFC 4648 for "f", "fo", "foo" and
      "foobar" pin the alphabet, the bit order and the padding. */
  lemma EncodeTestVectors()
    ensures Encode([0x66]) == "Zg=="
    ensures Encode([0x66, 0x6F]) == "Zm8="
    ensures Encode([0x66, 0x6F, 0x6F]) == "Zm9v"
    ensures Encode([0x66, 0x6F, 0x6F, 0x62, 0x61, 0x72]) == "Zm9vYmFy"
  {
    EncodeFoo();
    EncodeBar();
    var foobar: seq<byte> := [0x66, 0x6F, 0x6F, 0x62, 0x61, 0x72];
    assert foobar[3..] == [0x62, 0x61, 0x72];
    EncodeSplit(foobar);
  }

  lemma EncodeFoo()
    ensures Encode([0x66, 0x6F, 0x6F]) == "Zm9v"
  {
    var foo: seq<byte> := [0x66, 0x6F, 0x6F];
    assert foo[3..] == [];
  }

  lemma EncodeBar()
    ensures Encode([0x62, 0x61, 0x72]) == "YmFy"
  {
    var bar: seq<byte> := [0x62, 0x61, 0x72];
    assert bar[3..] == [];
  }

  /** Distinct byte strings never share an encoding. */
  lemma EncodeInjective(a: seq<byte>, b: seq<byte>)
    requires Encode(a) == Encode(b)
    ensures a == b
  {
    DecodeEncode(a);
    DecodeEncode(b);
  }

  /** The bytes a group decodes to give back its first two sextets. */
  lemma FirstByteSextets(v0: int, v1: int)
    requires 0 <= v0 < 64 && 0 <= v1 < 64
    ensures 0 <= v0 * 4 + v1 / 16 < 256
    ensures (v0 * 4 + v1 / 16) / 4 == v0 && (v0 * 4 + v1 / 16) % 4 == v1 / 16
  {
  }

  /** The middle byte gives back the low bits of the second sextet and the
      high bits of the third. */
  lemma SecondByteSextets(v1: int, v2: int)
    requires 0 <= v1 < 64 && 0 <= v2 < 64
    ensures 0 <= (v1 % 16) * 16 + v2 / 4 < 256
    ensures ((v1 % 16) * 16 + v2 / 4) / 16 == v1 % 16 && ((v1 % 16) * 16 + v2 / 4) % 16 == v2 / 4
  {
  }

  lemma ThirdByteSextets(v2: int, v3: int)
    requires 0 <= v2 < 64 && 0 <= v3 < 64
    ensures 0 <= (v2 % 4) * 64 + v3 < 256
    ensures ((v2 % 4) * 64 + v3) / 64 == v2 % 4 && ((v2 % 4) * 64 + v3) % 64 == v3
  {
  }

  /** A group that decodes with zero padding bits is the encoding of what it
      decodes to. */
  lemma QuadIsEncoding(q: string, head: seq<byte>)
    requires |q| == 4 && DecodeQuad(q) == Some(head) && ZeroPadBits(q)
    ensures q == Encode(head)
  {
    var v0 := SextetValue(q[0]).value;
    var v1 := SextetValue(q[1]).value;
    var x0 := v0 * 4 + v1 / 16;
    FirstByteSextets(v0, v1);
    if q[2] == '=' && q[3] == '=' {
      assert (x0 % 4) * 16 == v1;
      assert head == [x0 as byte];
      assert Block1(x0 as byte) == [Sextet(v0), Sextet(v1), '=', '='];
    } else {
      var v2 := SextetValue(q[2]).value;
      var x1 := (v1 % 16) * 16 + v2 / 4;
      SecondByteSextets(v1, v2);
      assert (x0 % 4) * 16 + x1 / 16 == v1;
      if q[3] == '=' {
        assert (x1 % 16) * 4 == v2;
        assert head == [x0 as byte, x1 as byte];
        assert Block2(x0 as byte, x1 as byte) == [Sextet(v0), Sextet(v1), Sextet(v2), '='];
      } else {
        var v3 := SextetValue(q[3]).value;
        var x2 := (v2 % 4) * 64 + v3;
        ThirdByteSextets(v2, v3);
        assert (x1 % 16) * 4 + x2 / 64 == v2;
        assert head == [x0 as byte, x1 as byte, x2 as byte];
        assert Block3(x0 as byte, x1 as byte, x2 as byte) == [Sextet(v0), Sextet(v1), Sextet(v2), Sextet(v3)];
        assert head[3..] == [];
        assert Encode(head) == Block3(x0 as byte, x1 as byte, x2 as byte) + "";
      }
    }
  }

  /** A non-empty string that decodes yields at least one byte. */
  lemma DecodeNonEmpty(s: string, b: seq<byte>)
    requires |s| > 0 && Decode(s) == Some(b)
    ensures |s| >= 4 && |b| > 0
  {
  }

  /** The encoding is the only padded string with zero padding bits that
      decodes to the given bytes, so Go's encoder output is determined by
      the round trip together with section 3.5 of RFC 4648. */
  lemma {:induction false} CanonicalIsEncode(s: string, b: seq<byte>)
    requires Decode(s) == Some(b) && ZeroPadBits(s)
    ensures s == Encode(b)
    decreases |s|
  {
    if |s| == 4 {
      assert s[..4] == s;
      QuadIsEncoding(s, b);
    } else if |s| > 4 {
      var head := DecodeQuad(s[..4]).value;
      var tail := Decode(s[4..]).value;
      DecodeNonEmpty(s[4..], tail);
      PadBitsOfRest(s);
      CanonicalIsEncode(s[4..], tail);
      CanonicalGroupThenRest(s, head, tail);
    }
  }

  /** The padding bits of a string longer than one group are those of the
      string after its first group. */
  lemma PadBitsOfRest(s: string)
    requires |s| >= 8 && ZeroPadBits(s)
    ensures ZeroPadBits(s[4..])
  {
    assert s[4..][|s| - 7..] == s[|s| - 3..];
  }

  /** One step of `CanonicalIsEncode`: a full first group that is the
      encoding of its three bytes, followed by the encoding of the rest. */
  lemma CanonicalGroupThenRest(s: string, head: seq<byte>, tail: seq<byte>)
    requires |s| > 4 && DecodeQuad(s[..4]) == Some(head) && |head| == 3 && |tail| > 0
    requires s[4..] == Encode(tail)
    ensures s == Encode(head + tail)
  {
    var q := s[..4];
    assert q[2] != '=' && q[3] != '=';
    QuadIsEncoding(q, head);
    assert head[3..] == [];
    assert Encode(head) == Block3(head[0], head[1], head[2]) + "";
    var b := head + tail;
    assert b[..3] == head && b[3..] == tail;
    EncodeSplit(b);
    assert s == q + s[4..];
  }

  /** The decoder ignores the padding bits: "AB==" decodes to the byte 0,
      whose encoding is "AA==". This is why the padding bits belong to the
      encoding's contract. */
  lemma DecodeIgnoresPadBits()
    ensures Decode("AB==") == Some([0]) && !ZeroPadBits("AB==")
    ensures Encode([0]) == "AA=="
  {
    assert "AB=="[..4] == "AB==";
  }
}
