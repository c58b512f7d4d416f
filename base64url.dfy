/**
 * Go's base64.RawURLEncoding: the URL- and file-name-safe alphabet of section 5
 * of RFC 4648, with the trailing "=" padding omitted (section 3.2 of RFC 4648).
 * Only EncodeToString is used by the handlers; Decode is the partner that shows
 * the encoding loses nothing, so distinct byte strings get distinct names.
 */
module Base64Url {
  import opened Wrappers

  /** A sextet: the 6-bit value one output character stands for. */
  type Sextet = v: bv8 | v < 64

  /** True of exactly the 64 characters of the URL-safe alphabet. */
  predicate IsUrlSafe(c: char) {
    ('A' <= c <= 'Z') || ('a' <= c <= 'z') || ('0' <= c <= '9') || c == '-' || c == '_'
  }

  /** The character for a sextet: A-Z, a-z, 0-9, then '-' and '_'. */
  function Char(v: Sextet): (c: char)
    ensures IsUrlSafe(c)
  {
    var n := v as int;
    if n < 26 then (65 + n) as char
    else if n < 52 then (97 + n - 26) as char
    else if n < 62 then (48 + n - 52) as char
    else if n == 62 then '-'
    else '_'
  }

  /** The sextet a character stands for, if it is in the alphabet. */
  function SextetOf(c: char): (r: Option<Sextet>)
    ensures r.Some? <==> IsUrlSafe(c)
  {
    if 'A' <= c <= 'Z' then Some((c as int - 65) as bv8)
    else if 'a' <= c <= 'z' then Some((c as int - 97 + 26) as bv8)
    else if '0' <= c <= '9' then Some((c as int - 48 + 52) as bv8)
    else if c == '-' then Some(62)
    else if c == '_' then Some(63)
    else None
  }

  /** Char and SextetOf are inverse: no two sextets share a character. */
  lemma SextetOfChar(v: Sextet)
    ensures SextetOf(Char(v)) == Some(v)
  {
    var n := v as int;
    assert n as bv8 == v;
    if n < 26 {
      assert Char(v) as int == 65 + n;
    } else if n < 52 {
      assert Char(v) as int == 97 + n - 26;
    } else if n < 62 {
      assert Char(v) as int == 48 + n - 52;
    }
  }

  /** The four sextets of a group of three bytes, high bits first. */
  function S0(b0: bv8): Sextet { b0 >> 2 }
  function S1(b0: bv8, b1: bv8): Sextet { ((b0 & 3) << 4) | (b1 >> 4) }
  function S2(b1: bv8, b2: bv8): Sextet { ((b1 & 15) << 2) | (b2 >> 6) }
  function S3(b2: bv8): Sextet { b2 & 63 }

  /** Cuts bytes into sextets three bytes at a time; a final one or two bytes
      give two or three sextets, the missing low bits being zero. */
  function Pack(b: seq<bv8>): (v: seq<Sextet>)
    ensures |v| == (8 * |b| + 5) / 6
    decreases |b|
  {
    if |b| == 0 then []
    else if |b| == 1 then [S0(b[0]), S1(b[0], 0)]
    else if |b| == 2 then [S0(b[0]), S1(b[0], b[1]), S2(b[1], 0)]
    else [S0(b[0]), S1(b[0], b[1]), S2(b[1], b[2]), S3(b[2])] + Pack(b[3..])
  }

  /** The three bytes of a group of four sextets. */
  function B0(v0: Sextet, v1: Sextet): bv8 { (v0 << 2) | (v1 >> 4) }
  function B1(v1: Sextet, v2: Sextet): bv8 { (v1 << 4) | (v2 >> 2) }
  function B2(v2: Sextet, v3: Sextet): bv8 { (v2 << 6) | v3 }

  /** Reassembles bytes from sextets, four sextets to three bytes; a final two
      or three sextets give one or two bytes, a lone final sextet none. */
  function Unpack(v: seq<Sextet>): seq<bv8>
    decreases |v|
  {
    if |v| < 2 then []
    else if |v| == 2 then [B0(v[0], v[1])]
    else if |v| == 3 then [B0(v[0], v[1]), B1(v[1], v[2])]
    else [B0(v[0], v[1]), B1(v[1], v[2]), B2(v[2], v[3])] + Unpack(v[4..])
  }

  /** The bits of three bytes survive the trip through their four sextets. */
  lemma Regroup(b0: bv8, b1: bv8, b2: bv8)
    ensures B0(S0(b0), S1(b0, b1)) == b0
    ensures B1(S1(b0, b1), S2(b1, b2)) == b1
    ensures B2(S2(b1, b2), S3(b2)) == b2
  {
  }

  /** One group of three bytes packs and unpacks to itself, ahead of the rest. */
  lemma UnpackPackGroup(b: seq<bv8>)
    requires |b| >= 3
    ensures Unpack(Pack(b)) == [b[0], b[1], b[2]] + Unpack(Pack(b[3..]))
  {
    var v := Pack(b);
    assert v[..4] == [S0(b[0]), S1(b[0], b[1]), S2(b[1], b[2]), S3(b[2])];
    assert v[4..] == Pack(b[3..]);
    Regroup(b[0], b[1], b[2]);
  }

  /** Unpacking undoes packing. */
  lemma {:induction false} UnpackPack(b: seq<bv8>)
    ensures Unpack(Pack(b)) == b
    decreases |b|
  {
    if |b| == 1 {
      Regroup(b[0], 0, 0);
      assert b == [b[0]];
    } else if |b| == 2 {
      Regroup(b[0], b[1], 0);
      assert b == [b[0], b[1]];
    } else if |b| >= 3 {
      UnpackPackGroup(b);
      UnpackPack(b[3..]);
      assert b == [b[0], b[1], b[2]] + b[3..];
    }
  }

  /** The characters of a sequence of sextets. */
  function Chars(v: seq<Sextet>): (s: string)
    ensures |s| == |v|
    ensures forall i :: 0 <= i < |v| ==> s[i] == Char(v[i])
  {
    seq(|v|, i requires 0 <= i < |v| => Char(v[i]))
  }

  /** The sextets of a string, or None when a character is outside the alphabet. */
  function SextetsOf(s: string): (r: Option<seq<Sextet>>)
    decreases |s|
  {
    if |s| == 0 then Some([])
    else
      match (SextetOf(s[0]), SextetsOf(s[1..]))
      case (Some(x), Some(rest)) => Some([x] + rest)
      case _ => None
  }

  /** Reading the characters back gives the sextets. */
  lemma {:induction false} SextetsOfChars(v: seq<Sextet>)
    ensures SextetsOf(Chars(v)) == Some(v)
    decreases |v|
  {
    if |v| > 0 {
      var s := Chars(v);
      SextetOfChar(v[0]);
      SextetsOfChars(v[1..]);
      assert s[1..] == Chars(v[1..]);
      assert v == [v[0]] + v[1..];
    }
  }

  /** EncodeToString: the unpadded URL-safe encoding of the bytes. */
  function Encode(b: seq<bv8>): (r: string)
    ensures |r| == (8 * |b| + 5) / 6
    ensures forall i :: 0 <= i < |r| ==> IsUrlSafe(r[i])
  {
    Chars(Pack(b))
  }

  /** Decodes an unpadded URL-safe string: None for a character outside the
      alphabet or a length that no byte string encodes to (1 more than a
      multiple of 4). Bits below the last whole byte are ignored. */
  function Decode(s: string): Option<seq<bv8>>
  {
    if |s| % 4 == 1 then None
    else
      match SextetsOf(s)
      case None => None
      case Some(v) => Some(Unpack(v))
  }

  /** No byte string packs to 1 more than a multiple of 4 sextets. */
  lemma {:induction false} PackLength(b: seq<bv8>)
    ensures |Pack(b)| % 4 != 1
    decreases |b|
  {
    if |b| >= 3 {
      PackLength(b[3..]);
    }
  }

  /** Round trip: decoding an encoding gives back the bytes. */
  lemma DecodeEncode(b: seq<bv8>)
    ensures Decode(Encode(b)) == Some(b)
  {
    PackLength(b);
    SextetsOfChars(Pack(b));
    UnpackPack(b);
  }

  /** Distinct byte strings encode to distinct strings. */
  lemma EncodeInjective(a: seq<bv8>, b: seq<bv8>)
    requires Encode(a) == Encode(b)
    ensures a == b
  {
    DecodeEncode(a);
    DecodeEncode(b);
  }
}
