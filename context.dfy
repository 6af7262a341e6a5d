/** The request-scoped context (`CqrsContext`): acting user, JSON metadata,
    request id, clock reading and optional fixed random bytes, with its
    builders and UUID generation. The clock reading and the random draw that
    `next_uuid` falls back on are inputs here. */
module Context {
  import opened Wrappers
  import Json

  newtype byte = x: int | 0 <= x < 256

  /** Sixteen bytes: the random input of a version-4 UUID. */
  type Bytes16 = s: seq<byte> | |s| == 16 witness [0, 0, 0, 0, 0, 0, 0, 0, 0, 0, 0, 0, 0, 0, 0, 0]

  datatype CqrsContext = CqrsContext(
    currentUser: Option<string>,
    metadata: Option<Json.Value>,
    requestId: string,
    now: int,
    randBytes: Option<Bytes16>)

  /** `CqrsContext::new`: empty request id, no metadata, no fixed bytes;
      `now` stands for the reading of the clock. */
  function New(currentUser: Option<string>, now: int): (c: CqrsContext)
    ensures c.currentUser == currentUser && c.now == now
    ensures c.requestId == "" && c.metadata == None && c.randBytes == None
  {
    CqrsContext(currentUser, None, "", now, None)
  }

  /** `current_user`: the stored user, or `anonymous`. */
  function CurrentUser(c: CqrsContext): (u: string)
    ensures c.currentUser.Some? ==> u == c.currentUser.value
    ensures c.currentUser.None? ==> u == "anonymous"
  {
    c.currentUser.GetOr("anonymous")
  }

  /** `with_request_id`: replaces the request id only. */
  function WithRequestId(c: CqrsContext, requestId: string): (r: CqrsContext)
    ensures r.requestId == requestId
    ensures r.currentUser == c.currentUser && r.metadata == c.metadata
    ensures r.now == c.now && r.randBytes == c.randBytes
  {
    c.(requestId := requestId)
  }

  /** `with_metadata`: replaces the metadata only. */
  function WithMetadata(c: CqrsContext, metadata: Json.Value): (r: CqrsContext)
    ensures r.metadata == Some(metadata)
    ensures r.currentUser == c.currentUser && r.requestId == c.requestId
    ensures r.now == c.now && r.randBytes == c.randBytes
  {
    c.(metadata := Some(metadata))
  }

  /** `with_rand_bytes`: fixes the bytes `next_uuid` uses, and nothing else. */
  function WithRandBytes(c: CqrsContext, bytes: Bytes16): (r: CqrsContext)
    ensures r.randBytes == Some(bytes)
    ensures r.currentUser == c.currentUser && r.requestId == c.requestId
    ensures r.now == c.now && r.metadata == c.metadata
  {
    c.(randBytes := Some(bytes))
  }

  /** `metadata(key)`: the whole value without a key, the entry for the key otherwise. */
  function Metadata(c: CqrsContext, key: Option<string>): (r: Option<Json.Value>)
    ensures key.None? ==> r == c.metadata
    ensures key.Some? && c.metadata.None? ==> r == None
    ensures key.Some? && c.metadata.Some? ==>
      (r.Some? <==> c.metadata.value.Object? && key.value in c.metadata.value.fields)
    ensures key.Some? && r.Some? ==> r.value == c.metadata.value.fields[key.value]
  {
    match key
    case None => c.metadata
    case Some(k) => if c.metadata.Some? then Json.Get(c.metadata.value, k) else None
  }

  // ============================================
  // UUID generation
  // ============================================

  /** `uuid::Builder::from_random_bytes`: sets the version nibble to 4
      (`(b[6] & 0x0F) | 0x40`) and the RFC 4122 variant bits
      (`(b[8] & 0x3F) | 0x80`), as in section 4.4 of RFC 4122. */
  function FromRandomBytes(b: Bytes16): (r: Bytes16)
    ensures r[6] as int / 16 == 4 && (r[6] as int) % 16 == (b[6] as int) % 16
    ensures r[8] as int / 64 == 2 && (r[8] as int) % 64 == (b[8] as int) % 64
    ensures forall i :: 0 <= i < 16 && i != 6 && i != 8 ==> r[i] == b[i]
  {
    b[6 := (b[6] % 16 + 0x40) as byte][8 := (b[8] % 64 + 0x80) as byte]
  }

  function HexDigit(n: nat): (c: char)
    requires n < 16
  {
    if n < 10 then (('0' as int) + n) as char else (('a' as int) + n - 10) as char
  }

  function HexValue(c: char): nat
  {
    if '0' <= c <= '9' then (c as int) - ('0' as int)
    else if 'a' <= c <= 'f' then (c as int) - ('a' as int) + 10
    else 0
  }

  lemma HexDigitValue(n: nat)
    requires n < 16
    ensures HexValue(HexDigit(n)) == n
  {
  }

  /** Lower-case hexadecimal, two digits per byte. */
  function Hex(bs: seq<byte>): (s: string)
    ensures |s| == 2 * |bs|
  {
    if bs == [] then []
    else [HexDigit(bs[0] as int / 16), HexDigit(bs[0] as int % 16)] + Hex(bs[1..])
  }

  function ParseHex(s: string): seq<byte>
  {
    if |s| < 2 then []
    else
      var v := HexValue(s[0]) * 16 + HexValue(s[1]);
      (if v < 256 then [v as byte] else [0]) + ParseHex(s[2..])
  }

  lemma {:induction false} ParseHexRoundTrip(bs: seq<byte>)
    ensures ParseHex(Hex(bs)) == bs
  {
    if bs != [] {
      var s := Hex(bs);
      HexDigitValue(bs[0] as int / 16);
      HexDigitValue(bs[0] as int % 16);
      assert s[2..] == Hex(bs[1..]);
      ParseHexRoundTrip(bs[1..]);
    }
  }

  lemma {:induction false} HexConcat(a: seq<byte>, b: seq<byte>)
    ensures Hex(a + b) == Hex(a) + Hex(b)
  {
    if a == [] {
      assert a + b == b;
    } else {
      assert (a + b)[0] == a[0];
      assert (a + b)[1..] == a[1..] + b;
      HexConcat(a[1..], b);
    }
  }

  /** The hyphenated form of section 3 of RFC 4122: groups of 8-4-4-4-12 hex digits. */
  function Hyphenated(b: Bytes16): string
  {
    Hex(b[0..4]) + "-" + Hex(b[4..6]) + "-" + Hex(b[6..8]) + "-" + Hex(b[8..10]) + "-" + Hex(b[10..16])
  }

  /** `Builder::from_random_bytes(bytes).as_uuid().to_string()`. */
  function UuidString(random: Bytes16): string
  {
    Hyphenated(FromRandomBytes(random))
  }

  /** `next_uuid`: the fixed bytes when the context has them, otherwise the
      given draw, which stands for `rand::random::<[u8; 16]>()`. */
  function NextUuid(c: CqrsContext, draw: Bytes16): string
  {
    UuidString(c.randBytes.GetOr(draw))
  }

  /** `with_next_request_id`: the request id becomes `next_uuid()`, the rest stays. */
  function WithNextRequestId(c: CqrsContext, draw: Bytes16): (r: CqrsContext)
    ensures r.requestId == NextUuid(c, draw)
    ensures r.currentUser == c.currentUser && r.metadata == c.metadata
    ensures r.now == c.now && r.randBytes == c.randBytes
  {
    c.(requestId := NextUuid(c, draw))
  }

  /** Reading the hyphenated form back: drop the hyphens and decode the hex. */
  function ParseUuid(s: string): seq<byte>
    requires |s| == 36
  {
    ParseHex(s[0..8]) + ParseHex(s[9..13]) + ParseHex(s[14..18]) + ParseHex(s[19..23]) + ParseHex(s[24..36])
  }

  /** A UUID string is 36 characters, hyphens at 8, 13, 18 and 23, version
      digit `4` at 14 and a variant digit among `8`, `9`, `a`, `b` at 19. */
  lemma UuidShape(random: Bytes16)
    ensures var s := UuidString(random);
      && |s| == 36
      && s[8] == '-' && s[13] == '-' && s[18] == '-' && s[23] == '-'
      && s[14] == '4'
      && s[19] in {'8', '9', 'a', 'b'}
  {
    var b := FromRandomBytes(random);
    var s := UuidString(random);
    assert s[14..18] == Hex(b[6..8]);
    assert s[14] == Hex(b[6..8])[0];
    assert s[19..23] == Hex(b[8..10]);
    assert s[19] == Hex(b[8..10])[0];
  }

  /** The string encodes exactly the version-stamped bytes. */
  lemma UuidRoundTrip(random: Bytes16)
    ensures |UuidString(random)| == 36
    ensures ParseUuid(UuidString(random)) == FromRandomBytes(random)
  {
    var b := FromRandomBytes(random);
    var s := UuidString(random);
    assert s[0..8] == Hex(b[0..4]);
    assert s[9..13] == Hex(b[4..6]);
    assert s[14..18] == Hex(b[6..8]);
    assert s[19..23] == Hex(b[8..10]);
    assert s[24..36] == Hex(b[10..16]);
    ParseHexRoundTrip(b[0..4]);
    ParseHexRoundTrip(b[4..6]);
    ParseHexRoundTrip(b[6..8]);
    ParseHexRoundTrip(b[8..10]);
    ParseHexRoundTrip(b[10..16]);
    assert b == b[0..4] + b[4..6] + b[6..8] + b[8..10] + b[10..16];
  }

  /** `next_uuid` always yields 36 characters. */
  lemma NextUuidLength(c: CqrsContext, draw: Bytes16)
    ensures |NextUuid(c, draw)| == 36
  {
    UuidRoundTrip(c.randBytes.GetOr(draw));
  }

  /** With fixed bytes the UUID no longer depends on the random draw. */
  lemma NextUuidDeterministic(c: CqrsContext, bytes: Bytes16, d1: Bytes16, d2: Bytes16)
    ensures NextUuid(WithRandBytes(c, bytes), d1) == NextUuid(WithRandBytes(c, bytes), d2)
    ensures NextUuid(WithRandBytes(c, bytes), d1) == UuidString(bytes)
  {
  }

  /** Draws that differ outside the version and variant bits give different UUIDs. */
  lemma NextUuidInjective(c: CqrsContext, d1: Bytes16, d2: Bytes16)
    requires c.randBytes == None
    requires FromRandomBytes(d1) != FromRandomBytes(d2)
    ensures NextUuid(c, d1) != NextUuid(c, d2)
  {
    UuidRoundTrip(d1);
    UuidRoundTrip(d2);
  }

  /** All-zero bytes give `00000000-0000-4000-8000-000000000000`. */
  lemma ZeroUuid(c: CqrsContext, draw: Bytes16)
    ensures NextUuid(WithRandBytes(c, [0, 0, 0, 0, 0, 0, 0, 0, 0, 0, 0, 0, 0, 0, 0, 0]), draw)
      == "00000000-0000-4000-8000-000000000000"
  {
    var z: Bytes16 := [0, 0, 0, 0, 0, 0, 0, 0, 0, 0, 0, 0, 0, 0, 0, 0];
    var b: Bytes16 := [0, 0, 0, 0, 0, 0, 0x40, 0, 0x80, 0, 0, 0, 0, 0, 0, 0];
    assert FromRandomBytes(z) == b;
    assert NextUuid(WithRandBytes(c, z), draw) == Hyphenated(b);
    ZeroHexPieces(b);
  }

  /** The hexadecimal groups of the version-4 UUID of sixteen zero bytes. */
  lemma ZeroHexPieces(b: Bytes16)
    requires b == [0, 0, 0, 0, 0, 0, 0x40, 0, 0x80, 0, 0, 0, 0, 0, 0, 0]
    ensures Hyphenated(b) == "00000000-0000-4000-8000-000000000000"
  {
    assert b[0..4] == [0, 0, 0, 0] && b[4..6] == [0, 0] && b[10..16] == [0, 0, 0, 0, 0, 0];
    assert b[6..8] == [0x40, 0] && b[8..10] == [0x80, 0];
    HexOfZeros();
    HexOfVersionAndVariant();
    ZeroGroupsJoined();
  }

  lemma ZeroGroupsJoined()
    ensures "00000000" + "-" + "0000" + "-" + "4000" + "-" + "8000" + "-" + "000000000000"
      == "00000000-0000-4000-8000-000000000000"
  {
  }

  lemma HexOfZeros()
    ensures Hex([0, 0]) == "0000"
    ensures Hex([0, 0, 0, 0]) == "00000000"
    ensures Hex([0, 0, 0, 0, 0, 0]) == "000000000000"
  {
    var zz: seq<byte> := [0, 0];
    assert Hex(zz) == "0000";
    assert [0, 0, 0, 0] == zz + zz;
    HexConcat(zz, zz);
    assert [0, 0, 0, 0, 0, 0] == zz + (zz + zz);
    HexConcat(zz, zz + zz);
  }

  lemma HexOfVersionAndVariant()
    ensures Hex([0x40, 0]) == "4000"
    ensures Hex([0x80, 0]) == "8000"
  {
  }
}
