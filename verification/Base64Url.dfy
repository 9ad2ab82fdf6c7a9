/** Base64urlUInt, the form of key parameters in section 2 of RFC 7518: _base64url_uint of backend/auth/routes.py. The
    alphabet is that of section 5 of RFC 4648. */
module Base64Url {
  import opened Options

  type Byte = b: int | 0 <= b < 256
  type Sextet = v: int | 0 <= v < 64

  const PAD := '='

  // ----- Numbers and octets -----

  function BitLength(n: nat): nat {
    if n == 0 then 0 else 1 + BitLength(n / 2)
  }

  function OctetLength(n: nat): nat {
    (BitLength(n) + 7) / 8
  }

  /** Big-endian octets of a given length; None is the overflow error. */
  function ToBytes(n: nat, length: nat): (r: Option<seq<Byte>>)
    ensures r.Some? ==> |r.value| == length
    decreases length
  {
    if length == 0 then if n == 0 then Some([]) else None
    else
      match ToBytes(n / 256, length - 1)
      case None => None
      case Some(front) => Some(front + [n % 256])
  }

  function FromBytes(bs: seq<Byte>): nat
    decreases |bs|
  {
    if bs == [] then 0 else 256 * FromBytes(bs[..|bs| - 1]) + bs[|bs| - 1]
  }

  lemma OctetLengthStep(n: nat)
    requires n > 0
    ensures OctetLength(n) == 1 + OctetLength(n / 256)
  {
    if n >= 256 {
      BitLengthStep(n);
    } else {
      SmallBitLength(n);
    }
  }

  lemma BitLengthStep(n: nat)
    requires n >= 256
    ensures BitLength(n) == 8 + BitLength(n / 256)
  {
    var n1 := n / 2;
    var n2 := n1 / 2;
    var n3 := n2 / 2;
    var n4 := n3 / 2;
    var n5 := n4 / 2;
    var n6 := n5 / 2;
    var n7 := n6 / 2;
    assert n7 / 2 == n / 256;
    assert BitLength(n) == 1 + BitLength(n1) && BitLength(n1) == 1 + BitLength(n2);
    assert BitLength(n2) == 1 + BitLength(n3) && BitLength(n3) == 1 + BitLength(n4);
    assert BitLength(n4) == 1 + BitLength(n5) && BitLength(n5) == 1 + BitLength(n6);
    assert BitLength(n6) == 1 + BitLength(n7) && BitLength(n7) == 1 + BitLength(n7 / 2);
  }

  lemma SmallBitLength(n: nat)
    requires 0 < n < 256
    ensures 1 <= BitLength(n) <= 8
  {
    BitLengthAtMost(n / 2, 7);
  }

  lemma {:induction false} BitLengthAtMost(n: nat, bits: nat)
    requires bits <= 7 && n < [1, 2, 4, 8, 16, 32, 64, 128][bits]
    ensures BitLength(n) <= bits
    decreases bits
  {
    if n > 0 {
      BitLengthAtMost(n / 2, bits - 1);
    }
  }

  /** The octet length is the least one that does not overflow, the octets give the number back, and the first of them
      is not zero. */
  lemma {:induction false} MinimalOctets(n: nat)
    ensures forall length: nat :: ToBytes(n, length).Some? <==> length >= OctetLength(n)
    ensures FromBytes(ToBytes(n, OctetLength(n)).value) == n
    ensures n > 0 ==> OctetLength(n) > 0 && ToBytes(n, OctetLength(n)).value[0] != 0
    decreases n
  {
    if n == 0 {
      forall length: nat ensures ToBytes(0, length).Some? {
        ZeroFits(length);
      }
    } else {
      OctetLengthStep(n);
      MinimalOctets(n / 256);
      forall length: nat ensures ToBytes(n, length).Some? <==> length >= OctetLength(n) {
        if length > 0 {
          assert ToBytes(n, length).Some? <==> ToBytes(n / 256, length - 1).Some?;
        }
      }
      var front := ToBytes(n / 256, OctetLength(n) - 1).value;
      assert (front + [n % 256])[..|front|] == front;
      if n < 256 {
        assert front == [];
      }
    }
  }

  lemma {:induction false} ZeroFits(length: nat)
    ensures ToBytes(0, length).Some?
  {
    if length > 0 {
      ZeroFits(length - 1);
    }
  }

  // ----- Octets and characters -----

  predicate InAlphabet(c: char) {
    'A' <= c <= 'Z' || 'a' <= c <= 'z' || '0' <= c <= '9' || c == '-' || c == '_'
  }

  function CharOf(v: Sextet): char {
    if v < 26 then 'A' + v as char
    else if v < 52 then 'a' + (v - 26) as char
    else if v < 62 then '0' + (v - 52) as char
    else if v == 62 then '-' else '_'
  }

  function ValueOf(c: char): Sextet
    requires InAlphabet(c)
  {
    if 'A' <= c <= 'Z' then c as int - 'A' as int
    else if 'a' <= c <= 'z' then c as int - 'a' as int + 26
    else if '0' <= c <= '9' then c as int - '0' as int + 52
    else if c == '-' then 62 else 63
  }

  lemma CharsAndValues(v: Sextet, c: char)
    ensures InAlphabet(CharOf(v)) && ValueOf(CharOf(v)) == v
    ensures InAlphabet(c) ==> CharOf(ValueOf(c)) == c
    ensures !InAlphabet(PAD)
  {
  }

  function Chars(vs: seq<Sextet>): (s: string)
    ensures |s| == |vs|
    ensures forall k :: 0 <= k < |s| ==> s[k] == CharOf(vs[k])
  {
    seq(|vs|, k requires 0 <= k < |vs| => CharOf(vs[k]))
  }

  // The sextets of three octets, and the octets of four sextets; a group cut short is completed with zero octets.

  function Sextet0(b0: Byte): Sextet { b0 / 4 }
  function Sextet1(b0: Byte, b1: Byte): Sextet { b0 % 4 * 16 + b1 / 16 }
  function Sextet2(b1: Byte, b2: Byte): Sextet { b1 % 16 * 4 + b2 / 64 }
  function Sextet3(b2: Byte): Sextet { b2 % 64 }
  function Octet0(v0: Sextet, v1: Sextet): Byte { v0 * 4 + v1 / 16 }
  function Octet1(v1: Sextet, v2: Sextet): Byte { v1 % 16 * 16 + v2 / 4 }
  function Octet2(v2: Sextet, v3: Sextet): Byte { v2 % 4 * 64 + v3 }

  lemma OctetsOfSextets(b0: Byte, b1: Byte, b2: Byte)
    ensures Octet0(Sextet0(b0), Sextet1(b0, b1)) == b0
    ensures Octet1(Sextet1(b0, b1), Sextet2(b1, b2)) == b1
    ensures Octet2(Sextet2(b1, b2), Sextet3(b2)) == b2
    ensures Sextet1(b0, 0) % 16 == 0 && Sextet2(b1, 0) % 4 == 0
  {
  }

  lemma SextetsOfOctets(v0: Sextet, v1: Sextet, v2: Sextet, v3: Sextet)
    ensures Sextet0(Octet0(v0, v1)) == v0
    ensures Sextet1(Octet0(v0, v1), Octet1(v1, v2)) == v1
    ensures Sextet2(Octet1(v1, v2), Octet2(v2, v3)) == v2
    ensures Sextet3(Octet2(v2, v3)) == v3
    ensures v1 % 16 == 0 ==> Sextet1(Octet0(v0, v1), 0) == v1
    ensures v2 % 4 == 0 ==> Sextet2(Octet1(v1, v2), 0) == v2
  {
  }

  /** urlsafe_b64encode: four characters for three octets, the last group padded. */
  function Encode(bs: seq<Byte>): string
    decreases |bs|
  {
    if |bs| == 0 then ""
    else if |bs| == 1 then Chars([Sextet0(bs[0]), Sextet1(bs[0], 0)]) + [PAD, PAD]
    else if |bs| == 2 then Chars([Sextet0(bs[0]), Sextet1(bs[0], bs[1]), Sextet2(bs[1], 0)]) + [PAD]
    else Chars([Sextet0(bs[0]), Sextet1(bs[0], bs[1]), Sextet2(bs[1], bs[2]), Sextet3(bs[2])]) + Encode(bs[3..])
  }

  function StripPadding(s: string): string
    decreases |s|
  {
    if s != [] && s[|s| - 1] == PAD then StripPadding(s[..|s| - 1]) else s
  }

  function Base64UrlUInt(n: nat): string
    requires ToBytes(n, OctetLength(n)).Some?
  {
    var octets := ToBytes(n, OctetLength(n)).value;
    StripPadding(Encode(if octets == [] then [0] else octets))
  }

  // ----- A reader -----

  predicate AllInAlphabet(s: string) {
    forall k :: 0 <= k < |s| ==> InAlphabet(s[k])
  }

  /** Unpadded base64url: groups of four characters, then a group of two or three whose unused bits are zero. */
  function Decode(s: string): Option<seq<Byte>>
    requires AllInAlphabet(s)
    decreases |s|
  {
    if |s| == 0 then Some([])
    else if |s| == 1 then None
    else
      var v0, v1 := ValueOf(s[0]), ValueOf(s[1]);
      if |s| == 2 then if v1 % 16 != 0 then None else Some([Octet0(v0, v1)])
      else
        var v2 := ValueOf(s[2]);
        if |s| == 3 then if v2 % 4 != 0 then None else Some([Octet0(v0, v1), Octet1(v1, v2)])
        else
          var group := [Octet0(v0, v1), Octet1(v1, v2), Octet2(v2, ValueOf(s[3]))];
          match Decode(s[4..])
          case None => None
          case Some(rest) => Some(group + rest)
  }

  /** Reads a Base64urlUInt; the empty string is none. */
  function ReadUInt(s: string): Option<nat> {
    if !AllInAlphabet(s) || s == "" then None
    else
      match Decode(s)
      case None => None
      case Some(octets) => Some(FromBytes(octets))
  }

  /** The minimal form: no leading zero octet, and one zero octet for zero. */
  predicate Minimal(octets: seq<Byte>) {
    octets == [0] || (octets != [] && octets[0] != 0)
  }

  // ----- Round trips -----

  /** Encode without its padding. */
  function Unpadded(bs: seq<Byte>): string
    decreases |bs|
  {
    if |bs| == 0 then ""
    else if |bs| == 1 then Chars([Sextet0(bs[0]), Sextet1(bs[0], 0)])
    else if |bs| == 2 then Chars([Sextet0(bs[0]), Sextet1(bs[0], bs[1]), Sextet2(bs[1], 0)])
    else Chars([Sextet0(bs[0]), Sextet1(bs[0], bs[1]), Sextet2(bs[1], bs[2]), Sextet3(bs[2])]) + Unpadded(bs[3..])
  }

  lemma {:induction false} UnpaddedIsInAlphabet(bs: seq<Byte>)
    ensures AllInAlphabet(Unpadded(bs)) && |Unpadded(bs)| == (4 * |bs| + 2) / 3
    decreases |bs|
  {
    forall v: Sextet ensures InAlphabet(CharOf(v)) {
      CharsAndValues(v, PAD);
    }
    if |bs| >= 3 {
      UnpaddedIsInAlphabet(bs[3..]);
    }
  }

  lemma {:induction false} EncodePads(bs: seq<Byte>) returns (pads: string)
    ensures Encode(bs) == Unpadded(bs) + pads && forall k :: 0 <= k < |pads| ==> pads[k] == PAD
    decreases |bs|
  {
    if |bs| >= 3 {
      pads := EncodePads(bs[3..]);
    } else {
      pads := if |bs| == 0 then "" else if |bs| == 1 then [PAD, PAD] else [PAD];
    }
  }

  lemma {:induction false} StripRemovesPads(s: string, pads: string)
    requires AllInAlphabet(s) && forall k :: 0 <= k < |pads| ==> pads[k] == PAD
    ensures StripPadding(s + pads) == s
    decreases |pads|
  {
    if pads == "" {
      assert s + pads == s;
    } else {
      assert (s + pads)[..|s + pads| - 1] == s + pads[..|pads| - 1];
      StripRemovesPads(s, pads[..|pads| - 1]);
    }
  }

  lemma StripEncode(bs: seq<Byte>)
    ensures StripPadding(Encode(bs)) == Unpadded(bs)
  {
    var pads := EncodePads(bs);
    UnpaddedIsInAlphabet(bs);
    StripRemovesPads(Unpadded(bs), pads);
  }

  lemma {:induction false} DecodeUnpadded(bs: seq<Byte>)
    ensures AllInAlphabet(Unpadded(bs)) && Decode(Unpadded(bs)) == Some(bs)
    decreases |bs|
  {
    hide Sextet0, Sextet1, Sextet2, Sextet3, Octet0, Octet1, Octet2, CharOf, ValueOf, InAlphabet;
    UnpaddedIsInAlphabet(bs);
    forall v: Sextet ensures InAlphabet(CharOf(v)) && ValueOf(CharOf(v)) == v {
      CharsAndValues(v, PAD);
    }
    if bs != [] {
      OctetsOfSextets(bs[0], if |bs| > 1 then bs[1] else 0, if |bs| > 2 then bs[2] else 0);
    }
    if |bs| >= 3 {
      DecodeUnpadded(bs[3..]);
      assert Unpadded(bs)[4..] == Unpadded(bs[3..]);
      assert bs == [bs[0], bs[1], bs[2]] + bs[3..];
    } else {
      assert |bs| == 1 ==> bs == [bs[0]];
      assert |bs| == 2 ==> bs == [bs[0], bs[1]];
    }
  }

  lemma {:induction false} UnpaddedDecode(s: string)
    requires AllInAlphabet(s) && Decode(s).Some?
    ensures Unpadded(Decode(s).value) == s
    decreases |s|
  {
    hide Sextet0, Sextet1, Sextet2, Sextet3, Octet0, Octet1, Octet2, CharOf, ValueOf, InAlphabet;
    forall c | InAlphabet(c) ensures CharOf(ValueOf(c)) == c {
      CharsAndValues(0, c);
    }
    if |s| >= 2 {
      SextetsOfOctets(ValueOf(s[0]), ValueOf(s[1]),
                    if |s| > 2 then ValueOf(s[2]) else 0, if |s| > 3 then ValueOf(s[3]) else 0);
    }
    if |s| >= 4 {
      UnpaddedDecode(s[4..]);
      var octets := Decode(s).value;
      assert octets[3..] == Decode(s[4..]).value;
    }
  }

  /** Every natural number is encoded without overflow and read back; the text has no padding and no foreign character,
      and its octets are minimal. */
  lemma UIntRoundTrip(n: nat)
    ensures ToBytes(n, OctetLength(n)).Some?
    ensures ReadUInt(Base64UrlUInt(n)) == Some(n)
    ensures AllInAlphabet(Base64UrlUInt(n)) && PAD !in Base64UrlUInt(n)
    ensures Decode(Base64UrlUInt(n)).Some? && Minimal(Decode(Base64UrlUInt(n)).value)
  {
    hide Encode, Unpadded, StripPadding, InAlphabet;
    CharsAndValues(0, PAD);
    MinimalOctets(n);
    var octets := ToBytes(n, OctetLength(n)).value;
    var written := if octets == [] then [0] else octets;
    StripEncode(written);
    DecodeUnpadded(written);
    UnpaddedIsInAlphabet(written);
  }

  /** Zero is written as one zero octet. */
  lemma ZeroIsOneOctet()
    ensures AllInAlphabet(Base64UrlUInt(0)) && Decode(Base64UrlUInt(0)) == Some([0])
  {
    hide Encode, Unpadded, StripPadding, Decode, InAlphabet;
    StripEncode([0]);
    DecodeUnpadded([0]);
  }

  /** The texts a reader accepts as Base64urlUInt in its minimal form. */
  predicate IsMinimalText(s: string) {
    AllInAlphabet(s) && Decode(s).Some? && Minimal(Decode(s).value)
  }

  /** Each minimal text is the encoding of the number it reads as, so numbers and minimal texts match one to one. */
  lemma MinimalTextsAreEncodings(s: string)
    ensures IsMinimalText(s) <==>
      exists n: nat :: ToBytes(n, OctetLength(n)).Some? && Base64UrlUInt(n) == s && ReadUInt(s) == Some(n)
  {
    if IsMinimalText(s) {
      MinimalTextIsEncoding(s);
    }
    if n: nat :| ToBytes(n, OctetLength(n)).Some? && Base64UrlUInt(n) == s && ReadUInt(s) == Some(n) {
      UIntRoundTrip(n);
    }
  }

  lemma MinimalTextIsEncoding(s: string)
    requires IsMinimalText(s)
    ensures var n := FromBytes(Decode(s).value);
      ReadUInt(s) == Some(n) && ToBytes(n, OctetLength(n)).Some? && Base64UrlUInt(n) == s
  {
    var octets := Decode(s).value;
    UnpaddedDecode(s);
    MinimalOctets(FromBytes(octets));
    StripEncode(octets);
    if octets == [0] {
      assert FromBytes([0]) == 0;
    } else {
      MinimalIsUnique(octets);
    }
  }

  lemma {:induction false} MinimalIsUnique(octets: seq<Byte>)
    requires octets != [] && octets[0] != 0
    ensures FromBytes(octets) > 0
    ensures ToBytes(FromBytes(octets), OctetLength(FromBytes(octets))) == Some(octets)
    decreases |octets|
  {
    var front, last := octets[..|octets| - 1], octets[|octets| - 1];
    var n := FromBytes(octets);
    assert front + [last] == octets;
    if front == [] {
      assert FromBytes(front) == 0;
    } else {
      MinimalIsUnique(front);
    }
    assert n == 256 * FromBytes(front) + last && n / 256 == FromBytes(front) && n % 256 == last;
    OctetLengthStep(n);
    assert ToBytes(n / 256, OctetLength(n) - 1) == Some(front);
  }
}
