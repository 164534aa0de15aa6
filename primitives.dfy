/**
 * The leaf values of the schema: bytes, the fixed integer widths of the Rust
 * types, the fixed-length byte strings of alloy_primitives (Address, B256,
 * FixedBytes<56>) and their hexadecimal text, and the byte-wise order that
 * Rust's derived Ord gives to those byte arrays.
 */
module Primitives {
  import opened Wrappers

  type Byte = b: int | 0 <= b < 0x100

  const U32_LIMIT: int := 0x1_0000_0000
  const U64_LIMIT: int := 0x1_0000_0000_0000_0000
  const U128_LIMIT: int := 0x1_0000_0000_0000_0000_0000_0000_0000_0000
  const U256_LIMIT: int := U128_LIMIT * U128_LIMIT

  type U8 = n: int | 0 <= n < 0x100
  type U32 = n: int | 0 <= n < U32_LIMIT
  type U64 = n: int | 0 <= n < U64_LIMIT
  type U128 = n: int | 0 <= n < U128_LIMIT
  type U256 = n: int | 0 <= n < U256_LIMIT
  type I32 = n: int | -0x8000_0000 <= n < 0x8000_0000
  type I64 = n: int | -0x8000_0000_0000_0000 <= n < 0x8000_0000_0000_0000
  type I128 = n: int | -0x8000_0000_0000_0000_0000_0000_0000_0000 <= n < 0x8000_0000_0000_0000_0000_0000_0000_0000

  /** alloy's Address: 20 bytes. */
  type Address = s: seq<Byte> | |s| == 20 witness Zeros(20)
  /** alloy's B256 = FixedBytes<32>. */
  type B256 = s: seq<Byte> | |s| == 32 witness Zeros(32)
  /** alloy's FixedBytes<56>, the raw form of an order uid. */
  type Bytes56 = s: seq<Byte> | |s| == 56 witness Zeros(56)

  function Zeros(n: nat): (s: seq<Byte>)
    ensures |s| == n && forall i :: 0 <= i < n ==> s[i] == 0
  {
    seq(n, _ => 0)
  }

  /** Opaque values whose wire text belongs to libraries outside this model. */
  datatype BigDecimal = BigDecimal(unscaled: int, scale: int)
  datatype F64 = F64(bits: U64)
  datatype DateTime = DateTime(unixSeconds: int, nanos: nat)
  datatype AccessListItem = AccessListItem(address: Address, storageKeys: seq<B256>)
  datatype AccessList = AccessList(items: seq<AccessListItem>)

  // ---------------------------------------------------------------------
  // Hexadecimal text: "0x" followed by two lower-case digits per byte.
  // ---------------------------------------------------------------------

  function HexChar(d: nat): char
    requires d < 16
  {
    if d < 10 then ('0' as int + d) as char else ('a' as int + d - 10) as char
  }

  function HexValue(c: char): Option<nat>
  {
    if '0' <= c <= '9' then Some(c as int - '0' as int)
    else if 'a' <= c <= 'f' then Some(c as int - 'a' as int + 10)
    else None
  }

  function HexDigits(bytes: seq<Byte>): (s: string)
    ensures |s| == 2 * |bytes|
  {
    if bytes == [] then []
    else [HexChar(bytes[0] / 16), HexChar(bytes[0] % 16)] + HexDigits(bytes[1..])
  }

  function HexText(bytes: seq<Byte>): string
  {
    "0x" + HexDigits(bytes)
  }

  function ParseHexDigits(s: string): Option<seq<Byte>>
  {
    if s == [] then Some([])
    else if |s| == 1 then None
    else
      match (HexValue(s[0]), HexValue(s[1]), ParseHexDigits(s[2..]))
      case (Some(hi), Some(lo), Some(rest)) => Some([hi * 16 + lo] + rest)
      case _ => None
  }

  function ParseHexText(s: string): Option<seq<Byte>>
  {
    if |s| >= 2 && s[..2] == "0x" then ParseHexDigits(s[2..]) else None
  }

  lemma HexCharValue(d: nat)
    requires d < 16
    ensures HexValue(HexChar(d)) == Some(d)
  {
  }

  lemma HexValueChar(c: char)
    requires HexValue(c).Some?
    ensures HexValue(c).value < 16 && HexChar(HexValue(c).value) == c
  {
  }

  lemma {:induction false} HexDigitsRoundTrip(bytes: seq<Byte>)
    ensures ParseHexDigits(HexDigits(bytes)) == Some(bytes)
  {
    if bytes != [] {
      var s := HexDigits(bytes);
      HexCharValue(bytes[0] / 16);
      HexCharValue(bytes[0] % 16);
      HexDigitsRoundTrip(bytes[1..]);
      assert s[2..] == HexDigits(bytes[1..]);
      assert [bytes[0]] + bytes[1..] == bytes;
    }
  }

  /** Reading back the text of any byte string gives that byte string. */
  lemma HexTextRoundTrip(bytes: seq<Byte>)
    ensures ParseHexText(HexText(bytes)) == Some(bytes)
  {
    var s := HexText(bytes);
    assert s[..2] == "0x" && s[2..] == HexDigits(bytes);
    HexDigitsRoundTrip(bytes);
  }

  lemma {:induction false} HexDigitsCanonical(s: string, bytes: seq<Byte>)
    requires ParseHexDigits(s) == Some(bytes)
    ensures s == HexDigits(bytes)
  {
    if s != [] {
      var hi, lo, rest := HexValue(s[0]).value, HexValue(s[1]).value, ParseHexDigits(s[2..]).value;
      HexValueChar(s[0]);
      HexValueChar(s[1]);
      HexDigitsCanonical(s[2..], rest);
      assert bytes[0] == hi * 16 + lo && bytes[1..] == rest;
      assert s == [s[0], s[1]] + s[2..];
    }
  }

  /** The only text the hex reader accepts for a byte string is its canonical text. */
  lemma HexTextCanonical(s: string, bytes: seq<Byte>)
    requires ParseHexText(s) == Some(bytes)
    ensures s == HexText(bytes)
  {
    HexDigitsCanonical(s[2..], bytes);
    assert s == s[..2] + s[2..];
  }

  lemma HexTextInjective(a: seq<Byte>, b: seq<Byte>)
    requires HexText(a) == HexText(b)
    ensures a == b
  {
    HexTextRoundTrip(a);
    HexTextRoundTrip(b);
  }

  // ---------------------------------------------------------------------
  // Byte-wise lexicographic order (Rust's Ord on [u8; N] and on slices).
  // ---------------------------------------------------------------------

  predicate Below(a: seq<Byte>, b: seq<Byte>)
  {
    if a == [] then b != []
    else b != [] && (a[0] < b[0] || (a[0] == b[0] && Below(a[1..], b[1..])))
  }

  lemma {:induction false} BelowIrreflexive(a: seq<Byte>)
    ensures !Below(a, a)
  {
    if a != [] {
      BelowIrreflexive(a[1..]);
    }
  }

  lemma {:induction false} BelowTransitive(a: seq<Byte>, b: seq<Byte>, c: seq<Byte>)
    requires Below(a, b) && Below(b, c)
    ensures Below(a, c)
  {
    if a != [] && a[0] == b[0] && b[0] == c[0] {
      BelowTransitive(a[1..], b[1..], c[1..]);
    }
  }

  /** Two different byte strings are always ordered one way or the other. */
  lemma {:induction false} BelowTotal(a: seq<Byte>, b: seq<Byte>)
    requires a != b
    ensures Below(a, b) || Below(b, a)
  {
    if a != [] && b != [] && a[0] == b[0] {
      assert a == [a[0]] + a[1..] && b == [b[0]] + b[1..];
      BelowTotal(a[1..], b[1..]);
    }
  }

  lemma BelowAsymmetric(a: seq<Byte>, b: seq<Byte>)
    requires Below(a, b)
    ensures !Below(b, a)
  {
    if Below(b, a) {
      BelowTransitive(a, b, a);
      BelowIrreflexive(a);
    }
  }
}
