/**
 * The 56-byte order uid: bytes 0..32 hold the order digest, bytes 32..52 the
 * owner's address and bytes 52..56 the order's validTo as a big-endian u32.
 * `FromParts` fills a zeroed buffer range by range; `Parts` slices it back.
 */
module OrderUidCodec {
  import opened Wrappers
  import opened Primitives
  import opened Json

  datatype OrderUid = OrderUid(bytes: Bytes56)

  /** u32::to_be_bytes: most significant byte first. */
  function BigEndian(v: U32): (b: seq<Byte>)
    ensures |b| == 4
  {
    [v / 0x100_0000, v / 0x1_0000 % 0x100, v / 0x100 % 0x100, v % 0x100]
  }

  /** u32::from_be_bytes. */
  function FromBigEndian(b: seq<Byte>): U32
    requires |b| == 4
  {
    (b[0] as int) * 0x100_0000 + (b[1] as int) * 0x1_0000 + (b[2] as int) * 0x100 + b[3]
  }

  lemma BigEndianRoundTrip(v: U32)
    ensures FromBigEndian(BigEndian(v)) == v
  {
    var b := BigEndian(v);
    assert v == (v / 0x100) * 0x100 + v % 0x100;
    assert v / 0x100 == (v / 0x1_0000) * 0x100 + v / 0x100 % 0x100;
    assert v / 0x1_0000 == (v / 0x100_0000) * 0x100 + v / 0x1_0000 % 0x100;
  }

  /** Every 4-byte string is the big-endian encoding of the u32 it decodes to. */
  lemma FromBigEndianRoundTrip(b: seq<Byte>)
    requires |b| == 4
    ensures BigEndian(FromBigEndian(b)) == b
  {
    var v := FromBigEndian(b);
    assert v / 0x100 == (b[0] as int) * 0x1_0000 + (b[1] as int) * 0x100 + b[2];
    assert v / 0x1_0000 == (b[0] as int) * 0x100 + b[1];
    assert v / 0x100_0000 == b[0];
  }

  /** The byte layout of a uid: hash || owner || big-endian validTo. */
  function Layout(hash: B256, owner: Address, validTo: U32): Bytes56
  {
    hash + owner + BigEndian(validTo)
  }

  /** slice::copy_from_slice on buf[start..start + |src|]. */
  method CopyFromSlice(buf: array<Byte>, start: nat, src: seq<Byte>)
    requires start + |src| <= buf.Length
    modifies buf
    ensures buf[..] == old(buf[..start]) + src + old(buf[start + |src|..])
  {
    for i := 0 to |src|
      invariant buf[..start] == old(buf[..start])
      invariant buf[start..start + i] == src[..i]
      invariant buf[start + |src|..] == old(buf[start + |src|..])
      invariant forall k :: start + i <= k < start + |src| ==> buf[k] == old(buf[k])
    {
      buf[start + i] := src[i];
      assert buf[start..start + i + 1] == buf[start..start + i] + [src[i]];
    }
    assert buf[..] == buf[..start] + buf[start..start + |src|] + buf[start + |src|..];
  }

  /** OrderUid::from_parts. */
  method FromParts(hash: B256, owner: Address, validTo: U32) returns (uid: OrderUid)
    ensures uid.bytes == Layout(hash, owner, validTo)
    ensures uid.bytes[0..32] == hash && uid.bytes[32..52] == owner
    ensures uid.bytes[52..56] == BigEndian(validTo) && FromBigEndian(uid.bytes[52..56]) == validTo
  {
    var buf := new Byte[56](_ => 0);
    CopyFromSlice(buf, 0, hash);
    CopyFromSlice(buf, 32, owner);
    CopyFromSlice(buf, 52, BigEndian(validTo));
    uid := OrderUid(buf[..]);
    assert uid.bytes == hash + owner + BigEndian(validTo);
    BigEndianRoundTrip(validTo);
  }

  /** OrderUid::parts. Total: every 56-byte value splits into the three parts. */
  function Parts(uid: OrderUid): (B256, Address, U32)
  {
    (uid.bytes[0..32], uid.bytes[32..52], FromBigEndian(uid.bytes[52..56]))
  }

  /** Splitting a freshly packed uid gives back exactly the parts it was packed from. */
  lemma PartsOfLayout(hash: B256, owner: Address, validTo: U32)
    ensures Parts(OrderUid(Layout(hash, owner, validTo))) == (hash, owner, validTo)
  {
    var u := Layout(hash, owner, validTo);
    assert u[0..32] == hash && u[32..52] == owner && u[52..56] == BigEndian(validTo);
    BigEndianRoundTrip(validTo);
  }

  /** The three slices tile the 56 bytes: packing the parts of any uid rebuilds it. */
  lemma LayoutOfParts(uid: OrderUid)
    ensures var (h, o, v) := Parts(uid); OrderUid(Layout(h, o, v)) == uid
  {
    var b := uid.bytes;
    FromBigEndianRoundTrip(b[52..56]);
    assert b == b[0..32] + b[32..52] + b[52..56];
  }

  /** Different parts never pack to the same uid. */
  lemma LayoutInjective(h1: B256, o1: Address, v1: U32, h2: B256, o2: Address, v2: U32)
    requires Layout(h1, o1, v1) == Layout(h2, o2, v2)
    ensures h1 == h2 && o1 == o2 && v1 == v2
  {
    PartsOfLayout(h1, o1, v1);
    PartsOfLayout(h2, o2, v2);
  }

  /** The unit test order_uid_parts: repeated 0x01 hash, repeated 0x02 owner, validTo 123. */
  lemma PartsExample()
    ensures Parts(OrderUid(Layout(seq(32, _ => 1), seq(20, _ => 2), 123))) == (seq(32, _ => 1), seq(20, _ => 2), 123)
  {
    PartsOfLayout(seq(32, _ => 1), seq(20, _ => 2), 123);
  }

  // The uid is a newtype over FixedBytes<56>, written as the hex text of its bytes.

  function EncodeOrderUid(uid: OrderUid): Json
  {
    EncodeBytes(uid.bytes)
  }

  function DecodeOrderUid(j: Json): Decoded<OrderUid>
  {
    var b :- DecodeBytes56(j);
    Ok(OrderUid(b))
  }

  /** A uid reads back unchanged; hex text of any length other than 56 bytes is refused. */
  lemma OrderUidRoundTrip(uid: OrderUid)
    ensures DecodeOrderUid(EncodeOrderUid(uid)) == Ok(uid)
  {
    Bytes56RoundTrip(uid.bytes);
  }

  lemma OrderUidRefusesWrongLength(b: seq<Byte>)
    requires |b| != 56
    ensures DecodeOrderUid(EncodeBytes(b)) == Err(MalformedHex)
  {
    FixedBytesRoundTrip(b, 56);
  }
}
