/**
  The base 64 encoding of section 4 of RFC 4648 (standard alphabet, `=`
  padding), which the catalogue uses to derive identifiers, together with a
  decoder that serves as its inverse, and the 22-character truncation that
  turns an encoding into an identifier.
 */
module Base64 {
  import opened Wrappers

  type byte = b: int | 0 <= b < 256

  /** The value of one base 64 digit. */
  type sextet = v: int | 0 <= v < 64

  const PAD: char := '='

  /** Number of characters an identifier keeps (the `[:22]` slice). */
  const ID_LENGTH: nat := 22

  /** The 64 characters of the alphabet in Table 1 of RFC 4648. */
  predicate IsAlphabetChar(c: char) {
    ('A' <= c <= 'Z') || ('a' <= c <= 'z') || ('0' <= c <= '9') || c == '+' || c == '/'
  }

  /** Table 1 of RFC 4648: value to character. */
  function CharOf(v: sextet): (c: char)
    ensures IsAlphabetChar(c)
  {
    if v < 26 then (65 + v) as char
    else if v < 52 then (97 + v - 26) as char
    else if v < 62 then (48 + v - 52) as char
    else if v == 62 then '+'
    else '/'
  }

  /** Table 1 of RFC 4648 read backwards: character to value. */
  function ValueOf(c: char): (v: sextet)
    requires IsAlphabetChar(c)
    ensures CharOf(v) == c
  {
    if 'A' <= c <= 'Z' then c as int - 65
    else if 'a' <= c <= 'z' then c as int - 97 + 26
    else if '0' <= c <= '9' then c as int - 48 + 52
    else if c == '+' then 62
    else 63
  }

  lemma ValueOfCharOf(v: sextet)
    ensures ValueOf(CharOf(v)) == v
  {
  }

  /** A full 24-bit group: three octets become four digits. */
  function EncodeTriple(b0: byte, b1: byte, b2: byte): (r: string)
    ensures |r| == 4 && IsAlphabetChar(r[0]) && IsAlphabetChar(r[1]) && IsAlphabetChar(r[2]) && IsAlphabetChar(r[3])
  {
    [CharOf(b0 / 4), CharOf((b0 % 4) * 16 + b1 / 16), CharOf((b1 % 16) * 4 + b2 / 64), CharOf(b2 % 64)]
  }

  /** A final group of two octets: three digits and one pad. */
  function EncodePair(b0: byte, b1: byte): (r: string)
    ensures |r| == 4 && IsAlphabetChar(r[0]) && IsAlphabetChar(r[1]) && IsAlphabetChar(r[2]) && r[3] == PAD
  {
    [CharOf(b0 / 4), CharOf((b0 % 4) * 16 + b1 / 16), CharOf((b1 % 16) * 4), PAD]
  }

  /** A final group of one octet: two digits and two pads. */
  function EncodeSingle(b0: byte): (r: string)
    ensures |r| == 4 && IsAlphabetChar(r[0]) && IsAlphabetChar(r[1]) && r[2] == PAD && r[3] == PAD
  {
    [CharOf(b0 / 4), CharOf((b0 % 4) * 16), PAD, PAD]
  }

  /** Number of pad characters at the end of the encoding of n octets. */
  function Padding(n: nat): nat {
    (3 - n % 3) % 3
  }

  /** The encoding of section 4 of RFC 4648: four characters per started group of three octets. */
  function Encode(s: seq<byte>): (r: string)
    ensures |r| == 4 * ((|s| + 2) / 3)
    decreases |s|
  {
    if |s| == 0 then []
    else if |s| == 1 then EncodeSingle(s[0])
    else if |s| == 2 then EncodePair(s[0], s[1])
    else EncodeTriple(s[0], s[1], s[2]) + Encode(s[3..])
  }

  /**
    Every character of an encoding is a digit except the last `Padding(|s|)`
    ones, which are `=`.
   */
  lemma {:induction false} EncodeCharacters(s: seq<byte>)
    ensures forall i :: 0 <= i < |Encode(s)| ==> (IsAlphabetChar(Encode(s)[i]) <==> i < |Encode(s)| - Padding(|s|))
    ensures forall i :: 0 <= i < |Encode(s)| ==> (Encode(s)[i] == PAD <==> |Encode(s)| - Padding(|s|) <= i)
    decreases |s|
  {
    if |s| >= 3 {
      var head, tail := EncodeTriple(s[0], s[1], s[2]), Encode(s[3..]);
      EncodeCharacters(s[3..]);
      assert Encode(s) == head + tail;
      assert Padding(|s|) == Padding(|s[3..]|);
      assert forall i :: 4 <= i < |head + tail| ==> (head + tail)[i] == tail[i - 4];
    }
  }

  /** Decodes one group of four characters; padding is accepted only in the last group. */
  function DecodeQuantum(q: string, last: bool): Option<seq<byte>>
    requires |q| == 4
  {
    if IsAlphabetChar(q[0]) && IsAlphabetChar(q[1]) then
      var v0, v1 := ValueOf(q[0]), ValueOf(q[1]);
      if IsAlphabetChar(q[2]) && IsAlphabetChar(q[3]) then
        var v2, v3 := ValueOf(q[2]), ValueOf(q[3]);
        Some([v0 * 4 + v1 / 16, (v1 % 16) * 16 + v2 / 4, (v2 % 4) * 64 + v3])
      else if last && IsAlphabetChar(q[2]) && q[3] == PAD then
        var v2 := ValueOf(q[2]);
        Some([v0 * 4 + v1 / 16, (v1 % 16) * 16 + v2 / 4])
      else if last && q[2] == PAD && q[3] == PAD then
        Some([v0 * 4 + v1 / 16])
      else None
    else None
  }

  /** Base 64 decoding: `None` for a string that is not an encoding. */
  function Decode(t: string): Option<seq<byte>>
    decreases |t|
  {
    if |t| == 0 then Some([])
    else if |t| < 4 then None
    else
      match DecodeQuantum(t[..4], |t| == 4)
      case None => None
      case Some(group) =>
        match Decode(t[4..])
        case None => None
        case Some(rest) => Some(group + rest)
  }

  /** The digits of a group put back together give the octets they came from. */
  lemma RegroupTriple(b0: byte, b1: byte, b2: byte)
    ensures var v1, v2 := (b0 % 4) * 16 + b1 / 16, (b1 % 16) * 4 + b2 / 64;
      && (b0 / 4) * 4 + v1 / 16 == b0
      && (v1 % 16) * 16 + v2 / 4 == b1
      && (v2 % 4) * 64 + b2 % 64 == b2
  {
    var v1, v2 := (b0 % 4) * 16 + b1 / 16, (b1 % 16) * 4 + b2 / 64;
    assert v1 / 16 == b0 % 4 && v1 % 16 == b1 / 16;
    assert v2 / 4 == b1 % 16 && v2 % 4 == b2 / 64;
  }

  lemma DecodeTriple(b0: byte, b1: byte, b2: byte, last: bool)
    ensures DecodeQuantum(EncodeTriple(b0, b1, b2), last) == Some([b0, b1, b2])
  {
    RegroupTriple(b0, b1, b2);
    ValueOfCharOf(b0 / 4);
    ValueOfCharOf((b0 % 4) * 16 + b1 / 16);
    ValueOfCharOf((b1 % 16) * 4 + b2 / 64);
    ValueOfCharOf(b2 % 64);
  }

  lemma DecodePair(b0: byte, b1: byte)
    ensures DecodeQuantum(EncodePair(b0, b1), true) == Some([b0, b1])
  {
    ValueOfCharOf(b0 / 4);
    ValueOfCharOf((b0 % 4) * 16 + b1 / 16);
    ValueOfCharOf((b1 % 16) * 4);
  }

  lemma DecodeSingle(b0: byte)
    ensures DecodeQuantum(EncodeSingle(b0), true) == Some([b0])
  {
    ValueOfCharOf(b0 / 4);
    ValueOfCharOf((b0 % 4) * 16);
  }

  /** Decoding a string proceeds one group of four at a time. */
  lemma DecodeGroups(q: string, rest: string, group: seq<byte>, tail: seq<byte>)
    requires |q| == 4
    requires DecodeQuantum(q, |rest| == 0) == Some(group)
    requires Decode(rest) == Some(tail)
    ensures Decode(q + rest) == Some(group + tail)
  {
    assert (q + rest)[..4] == q && (q + rest)[4..] == rest;
  }

  /** Round trip: decoding an encoding gives back the octets. */
  lemma {:induction false} DecodeEncode(s: seq<byte>)
    ensures Decode(Encode(s)) == Some(s)
    decreases |s|
  {
    if |s| == 0 {
    } else if |s| == 1 {
      DecodeSingle(s[0]);
      DecodeGroups(EncodeSingle(s[0]), [], [s[0]], []);
      assert EncodeSingle(s[0]) + [] == Encode(s);
      assert [s[0]] + [] == s;
    } else if |s| == 2 {
      DecodePair(s[0], s[1]);
      DecodeGroups(EncodePair(s[0], s[1]), [], [s[0], s[1]], []);
      assert EncodePair(s[0], s[1]) + [] == Encode(s);
      assert [s[0], s[1]] + [] == s;
    } else {
      assert [s[0], s[1], s[2]] + s[3..] == s;
      var rest := Encode(s[3..]);
      DecodeTriple(s[0], s[1], s[2], |rest| == 0);
      DecodeEncode(s[3..]);
      DecodeGroups(EncodeTriple(s[0], s[1], s[2]), rest, [s[0], s[1], s[2]], s[3..]);
    }
  }

  /** Distinct octet strings have distinct encodings. */
  lemma EncodeInjective(a: seq<byte>, b: seq<byte>)
    requires Encode(a) == Encode(b)
    ensures a == b
  {
    DecodeEncode(a);
    DecodeEncode(b);
  }

  /** The encoding works group by group: a prefix of whole groups encodes on its own. */
  lemma {:induction false} EncodeAppend(p: seq<byte>, q: seq<byte>)
    requires |p| % 3 == 0
    ensures Encode(p + q) == Encode(p) + Encode(q)
    decreases |p|
  {
    if |p| == 0 {
      assert p + q == q;
    } else {
      assert (p + q)[3..] == p[3..] + q;
      EncodeAppend(p[3..], q);
    }
  }

  /** The first two characters of an encoding depend only on the first two octets. */
  lemma EncodeHead(s: seq<byte>)
    requires |s| >= 2
    ensures Encode(s)[..2] == [CharOf(s[0] / 4), CharOf((s[0] % 4) * 16 + s[1] / 16)]
  {
    if |s| == 2 {
      assert Encode(s) == EncodePair(s[0], s[1]);
    } else {
      assert Encode(s) == EncodeTriple(s[0], s[1], s[2]) + Encode(s[3..]);
    }
  }

  function Min(a: nat, b: nat): nat {
    if a <= b then a else b
  }

  /**
    The identifier derived from an octet string: the first 22 characters of
    its encoding, or all of it when the encoding is shorter.
   */
  function DeriveId(s: seq<byte>): (id: string)
    ensures |id| == Min(ID_LENGTH, 4 * ((|s| + 2) / 3))
    ensures id <= Encode(s)
    ensures forall i :: 0 <= i < |id| ==> IsAlphabetChar(id[i]) || id[i] == PAD
  {
    var e := Encode(s);
    EncodeCharacters(s);
    if |e| <= ID_LENGTH then e else e[..ID_LENGTH]
  }

  /** Up to 15 octets the whole encoding is kept, so distinct inputs keep distinct identifiers. */
  lemma ShortInputsDistinctIds(a: seq<byte>, b: seq<byte>)
    requires |a| <= 15 && |b| <= 15
    requires DeriveId(a) == DeriveId(b)
    ensures a == b
  {
    EncodeInjective(a, b);
  }

  /**
    Truncation makes the identifier a function of the first 17 octets alone:
    inputs that agree there collide, whatever follows.
   */
  lemma LongInputsCollide(a: seq<byte>, b: seq<byte>)
    requires |a| >= 17 && |b| >= 17
    requires a[..17] == b[..17]
    ensures DeriveId(a) == DeriveId(b)
  {
    assert a[..15] == a[..17][..15] == b[..17][..15] == b[..15];
    assert a[15] == a[..17][15] == b[15] && a[16] == a[..17][16] == b[16];
    var p := Encode(a[..15]);
    IdFromHead(a, p);
    IdFromHead(b, p);
  }

  /** After 15 octets the identifier keeps the two characters that the next two octets begin. */
  lemma IdFromHead(s: seq<byte>, p: string)
    requires |s| >= 17 && p == Encode(s[..15])
    ensures DeriveId(s) == p + [CharOf(s[15] / 4), CharOf((s[15] % 4) * 16 + s[16] / 16)]
  {
    var x := s[15..];
    assert s == s[..15] + x;
    EncodeAppend(s[..15], x);
    EncodeHead(x);
    assert Encode(s) == p + Encode(x);
    assert |p| == 20;
    assert (p + Encode(x))[..22] == p + Encode(x)[..2];
  }

  /** An example: the identifier an artist named "Abba" gets. */
  lemma AbbaId()
    ensures DeriveId([65, 98, 98, 97]) == "QWJiYQ=="
  {
    assert EncodeTriple(65, 98, 98) == [CharOf(16), CharOf(22), CharOf(9), CharOf(34)] == "QWJi";
    assert EncodeSingle(97) == [CharOf(24), CharOf(16), PAD, PAD] == "YQ==";
    assert [65, 98, 98, 97][3..] == [97];
    assert Encode([65, 98, 98, 97]) == "QWJi" + "YQ==";
  }

  /** The standard alphabet puts `/` into identifiers: the bytes of "ab?" give `YWI/`. */
  lemma IdsMayContainSlash()
    ensures DeriveId([97, 98, 63]) == "YWI/"
  {
    assert EncodeTriple(97, 98, 63) == [CharOf(24), CharOf(22), CharOf(8), CharOf(63)] == "YWI/";
    assert [97, 98, 63][3..] == [];
    assert Encode([97, 98, 63]) == "YWI/" + [];
  }

  /** The known-answer examples of section 10 of RFC 4648 ("", "f", "fo", ..., "foobar"). */
  lemma RfcTestVectors()
    ensures Encode([]) == ""
    ensures Encode([102]) == "Zg=="
    ensures Encode([102, 111]) == "Zm8="
    ensures Encode([102, 111, 111]) == "Zm9v"
    ensures Encode([102, 111, 111, 98]) == "Zm9vYg=="
    ensures Encode([102, 111, 111, 98, 97]) == "Zm9vYmE="
    ensures Encode([102, 111, 111, 98, 97, 114]) == "Zm9vYmFy"
  {
    ShortRfcVectors();
    LongRfcVectors();
  }

  /** The examples of section 10 of RFC 4648 with at most one group. */
  lemma ShortRfcVectors()
    ensures Encode([]) == ""
    ensures Encode([102]) == "Zg=="
    ensures Encode([102, 111]) == "Zm8="
    ensures Encode([102, 111, 111]) == "Zm9v"
  {
    assert EncodeSingle(102) == [CharOf(25), CharOf(32), PAD, PAD] == "Zg==";
    assert EncodePair(102, 111) == [CharOf(25), CharOf(38), CharOf(60), PAD] == "Zm8=";
    assert EncodeTriple(102, 111, 111) == [CharOf(25), CharOf(38), CharOf(61), CharOf(47)] == "Zm9v";
    assert [102, 111, 111][3..] == [];
    assert Encode([102, 111, 111]) == "Zm9v" + [];
  }

  /** The examples of section 10 of RFC 4648 with two groups. */
  lemma LongRfcVectors()
    ensures Encode([102, 111, 111, 98]) == "Zm9vYg=="
    ensures Encode([102, 111, 111, 98, 97]) == "Zm9vYmE="
    ensures Encode([102, 111, 111, 98, 97, 114]) == "Zm9vYmFy"
  {
    assert EncodeTriple(102, 111, 111) == [CharOf(25), CharOf(38), CharOf(61), CharOf(47)] == "Zm9v";
    assert EncodeSingle(98) == [CharOf(24), CharOf(32), PAD, PAD] == "Yg==";
    assert EncodePair(98, 97) == [CharOf(24), CharOf(38), CharOf(4), PAD] == "YmE=";
    assert EncodeTriple(98, 97, 114) == [CharOf(24), CharOf(38), CharOf(5), CharOf(50)] == "YmFy";
    assert [102, 111, 111, 98][3..] == [98];
    assert [102, 111, 111, 98, 97][3..] == [98, 97];
    assert [102, 111, 111, 98, 97, 114][3..] == [98, 97, 114];
    assert [98, 97, 114][3..] == [];
    assert Encode([98, 97, 114]) == "YmFy" + [];
    assert Encode([102, 111, 111, 98]) == "Zm9v" + "Yg==";
    assert Encode([102, 111, 111, 98, 97]) == "Zm9v" + "YmE=";
    assert Encode([102, 111, 111, 98, 97, 114]) == "Zm9v" + "YmFy";
  }
}
