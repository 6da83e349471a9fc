/**
 base64url without padding (section 5 of RFC 4648), the form PKCE verifiers and challenges
 take (pkg/datastore/evessopg/PKCE.go).  Text is the byte string Go holds it in; the
 characters of the alphabet are written as their ASCII codes.
 */
module Base64Url {
  import opened Wrappers

  type Byte = bv8
  type Text = seq<Byte>
  type Sextet = n: bv8 | n < 64

  /** 'A'..'Z', 'a'..'z', '0'..'9', '-', '_'. */
  function Symbol(n: Sextet): Byte
  {
    if n < 26 then 65 + n
    else if n < 52 then 97 + (n - 26)
    else if n < 62 then 48 + (n - 52)
    else if n == 62 then 45
    else 95
  }

  function SextetOf(c: Byte): Option<Sextet>
  {
    if 65 <= c <= 90 then Some(c - 65)
    else if 97 <= c <= 122 then Some(c - 97 + 26)
    else if 48 <= c <= 57 then Some(c - 48 + 52)
    else if c == 45 then Some(62)
    else if c == 95 then Some(63)
    else None
  }

  /** The unreserved characters of section 4.1 of RFC 7636: letters, digits, '-', '.', '_', '~'. */
  predicate Unreserved(c: Byte)
  {
    65 <= c <= 90 || 97 <= c <= 122 || 48 <= c <= 57 || c in {45, 46, 95, 126}
  }

  /** The alphabet of section 5 of RFC 4648, in ASCII: "A" to "Z", "a" to "z", "0" to "9", "-" and "_". */
  lemma Alphabet()
    ensures [Symbol(0), Symbol(1), Symbol(2), Symbol(3), Symbol(4), Symbol(5), Symbol(6), Symbol(7),
             Symbol(8), Symbol(9), Symbol(10), Symbol(11), Symbol(12), Symbol(13), Symbol(14), Symbol(15),
             Symbol(16), Symbol(17), Symbol(18), Symbol(19), Symbol(20), Symbol(21), Symbol(22), Symbol(23),
             Symbol(24), Symbol(25), Symbol(26), Symbol(27), Symbol(28), Symbol(29), Symbol(30), Symbol(31),
             Symbol(32), Symbol(33), Symbol(34), Symbol(35), Symbol(36), Symbol(37), Symbol(38), Symbol(39),
             Symbol(40), Symbol(41), Symbol(42), Symbol(43), Symbol(44), Symbol(45), Symbol(46), Symbol(47),
             Symbol(48), Symbol(49), Symbol(50), Symbol(51), Symbol(52), Symbol(53), Symbol(54), Symbol(55),
             Symbol(56), Symbol(57), Symbol(58), Symbol(59), Symbol(60), Symbol(61), Symbol(62), Symbol(63)]
         == [65, 66, 67, 68, 69, 70, 71, 72,
             73, 74, 75, 76, 77, 78, 79, 80,
             81, 82, 83, 84, 85, 86, 87, 88,
             89, 90, 97, 98, 99, 100, 101, 102,
             103, 104, 105, 106, 107, 108, 109, 110,
             111, 112, 113, 114, 115, 116, 117, 118,
             119, 120, 121, 122, 48, 49, 50, 51,
             52, 53, 54, 55, 56, 57, 45, 95]
  {
  }

  lemma SextetOfSymbol(n: Sextet)
    ensures SextetOf(Symbol(n)) == Some(n)
    ensures Unreserved(Symbol(n))
  {
  }

  // Three bytes as four sextets, and back.

  function Sextet1(x: Byte): Sextet { x >> 2 }
  function Sextet2(x: Byte, y: Byte): Sextet { ((x & 3) << 4) | (y >> 4) }
  function Sextet3(y: Byte, z: Byte): Sextet { ((y & 15) << 2) | (z >> 6) }
  function Sextet4(z: Byte): Sextet { z & 63 }

  function Byte1(a: Sextet, b: Sextet): Byte { (a << 2) | (b >> 4) }
  function Byte2(b: Sextet, c: Sextet): Byte { (b << 4) | (c >> 2) }
  function Byte3(c: Sextet, d: Sextet): Byte { (c << 6) | d }

  /** The 24 bits stay in their order. */
  lemma SameBits(x: Byte, y: Byte, z: Byte)
    ensures ((x as bv24) << 16) | ((y as bv24) << 8) | (z as bv24) ==
            ((Sextet1(x) as bv24) << 18) | ((Sextet2(x, y) as bv24) << 12)
            | ((Sextet3(y, z) as bv24) << 6) | (Sextet4(z) as bv24)
  {
  }

  function Sextets(bytes: seq<Byte>): seq<Sextet>
  {
    if bytes == [] then []
    else if |bytes| == 1 then
      [Sextet1(bytes[0]), Sextet2(bytes[0], 0)]
    else if |bytes| == 2 then
      [Sextet1(bytes[0]), Sextet2(bytes[0], bytes[1]), Sextet3(bytes[1], 0)]
    else
      [Sextet1(bytes[0]), Sextet2(bytes[0], bytes[1]), Sextet3(bytes[1], bytes[2]), Sextet4(bytes[2])]
      + Sextets(bytes[3..])
  }

  /** Bits left over in a last, incomplete group are dropped; a lone sextet is malformed. */
  function Bytes(s: seq<Sextet>): Option<seq<Byte>>
  {
    if s == [] then Some([])
    else if |s| == 1 then None
    else if |s| == 2 then Some([Byte1(s[0], s[1])])
    else if |s| == 3 then Some([Byte1(s[0], s[1]), Byte2(s[1], s[2])])
    else
      var rest := Bytes(s[4..]);
      if rest.None? then None
      else Some([Byte1(s[0], s[1]), Byte2(s[1], s[2]), Byte3(s[2], s[3])] + rest.value)
  }

  function Encode(bytes: seq<Byte>): Text
  {
    var s := Sextets(bytes);
    seq(|s|, i requires 0 <= i < |s| => Symbol(s[i]))
  }

  function Decode(text: Text): Option<seq<Byte>>
  {
    if forall i :: 0 <= i < |text| ==> SextetOf(text[i]).Some? then
      Bytes(seq(|text|, i requires 0 <= i < |text| && SextetOf(text[i]).Some? => SextetOf(text[i]).value))
    else None
  }

  /** Splitting three bytes into sextets loses nothing. */
  lemma SextetsKeepBytes(x: Byte, y: Byte, z: Byte)
    ensures Byte1(Sextet1(x), Sextet2(x, y)) == x
    ensures Byte2(Sextet2(x, y), Sextet3(y, z)) == y
    ensures Byte3(Sextet3(y, z), Sextet4(z)) == z
  {
  }

  lemma {:induction false} BytesOfSextets(bytes: seq<Byte>)
    ensures Bytes(Sextets(bytes)) == Some(bytes)
  {
    if |bytes| == 1 {
      SextetsKeepBytes(bytes[0], 0, 0);
      assert bytes == [bytes[0]];
    } else if |bytes| == 2 {
      SextetsKeepBytes(bytes[0], bytes[1], 0);
      assert bytes == [bytes[0], bytes[1]];
    } else if |bytes| > 2 {
      BytesOfSextets(bytes[3..]);
      SextetsKeepBytes(bytes[0], bytes[1], bytes[2]);
      assert Sextets(bytes)[4..] == Sextets(bytes[3..]);
      assert bytes == [bytes[0], bytes[1], bytes[2]] + bytes[3..];
    }
  }

  /** Decoding undoes encoding, for every byte string. */
  lemma RoundTrip(bytes: seq<Byte>)
    ensures Decode(Encode(bytes)) == Some(bytes)
  {
    var s, text := Sextets(bytes), Encode(bytes);
    forall i | 0 <= i < |text| ensures SextetOf(text[i]) == Some(s[i]) {
      SextetOfSymbol(s[i]);
    }
    assert seq(|text|, i requires 0 <= i < |text| && SextetOf(text[i]).Some? => SextetOf(text[i]).value) == s;
    BytesOfSextets(bytes);
  }

  /** Groups of three bytes are encoded one after the other, and a last, incomplete one as if zeros followed. */
  lemma EncodesInGroups(bytes: seq<Byte>)
    ensures var text := Encode(bytes);
      match |bytes|
      case 0 => text == []
      case 1 => text == [Symbol(Sextet1(bytes[0])), Symbol(Sextet2(bytes[0], 0))]
      case 2 => text == [Symbol(Sextet1(bytes[0])), Symbol(Sextet2(bytes[0], bytes[1])), Symbol(Sextet3(bytes[1], 0))]
      case _ =>
        text == [Symbol(Sextet1(bytes[0])), Symbol(Sextet2(bytes[0], bytes[1])),
                 Symbol(Sextet3(bytes[1], bytes[2])), Symbol(Sextet4(bytes[2]))] + Encode(bytes[3..])
  {
  }

  /** Test vectors of section 10 of RFC 4648, without padding, and the two symbols of section 5: "foob", and 0xfbff. */
  lemma TestVectors()
    ensures Encode([0x66, 0x6f, 0x6f, 0x62]) == [0x5a, 0x6d, 0x39, 0x76, 0x59, 0x67]
    ensures Encode([0xfb, 0xff]) == [0x2d, 0x5f, 0x38]
  {
    EncodesInGroups([0x66, 0x6f, 0x6f, 0x62]);
    assert [0x66, 0x6f, 0x6f, 0x62 as Byte][3..] == [0x62 as Byte];
    EncodesInGroups([0x62]);
    EncodesInGroups([0xfb, 0xff]);
  }

  /** So distinct byte strings have distinct encodings. */
  lemma EncodeInjective(a: seq<Byte>, b: seq<Byte>)
    ensures Encode(a) == Encode(b) <==> a == b
  {
    RoundTrip(a);
    RoundTrip(b);
  }

  lemma {:induction false} SextetCount(bytes: seq<Byte>)
    ensures |Sextets(bytes)| == (4 * |bytes| + 2) / 3
  {
    if |bytes| > 2 {
      SextetCount(bytes[3..]);
    }
  }

  /** Three bytes become four characters, rounded up, all of them unreserved. */
  lemma EncodingShape(bytes: seq<Byte>)
    ensures |Encode(bytes)| == (4 * |bytes| + 2) / 3
    ensures forall c :: c in Encode(bytes) ==> Unreserved(c)
  {
    SextetCount(bytes);
    forall n: Sextet ensures Unreserved(Symbol(n)) {
      SextetOfSymbol(n);
    }
  }
}
