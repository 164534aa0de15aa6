/**
 * An abstract JSON value and the serde rules shared by every schema type:
 * how numbers, strings, byte strings, options, sequences and maps are
 * written, how a struct reads its fields, and how an enum reads its tag.
 *
 * The value is abstract: there is no text, no whitespace and no escaping, and
 * an object is a map, so its key order and duplicate keys are not represented.
 * `Leaf` holds values whose text belongs to a library outside this model
 * (U256 quantities, BigDecimal, f64, chrono date-times, access lists).
 */
module Json {
  import opened Wrappers
  import opened Primitives
  import DecimalText

  datatype Foreign =
    | Quantity(n: int)
    | Decimal(d: BigDecimal)
    | Float(f: F64)
    | Time(t: DateTime)
    | Access(a: AccessList)

  datatype Json =
    | Null
    | Bool(b: bool)
    | Num(n: int)
    | Str(s: string)
    | Arr(items: seq<Json>)
    | Obj(fields: map<string, Json>)
    | Leaf(foreign: Foreign)

  /** Why a decoder refused its input. */
  datatype DecodeError =
    | InvalidType(expected: string)   // a value of the wrong JSON shape
    | MissingField(name: string)      // a required field is absent
    | UnknownVariant(tag: string)     // a tag or name outside the enum's table
    | InvalidInteger                  // out of range, or not decimal text
    | MalformedHex                    // not hex text, or the wrong byte length
    | NoVariantMatched                // an untagged union fits none of its shapes
    | InvalidEntry                    // some entry of a map does not decode
    | DuplicateKey                    // two map keys denote the same number

  type Decoded<T> = Result<T, DecodeError>

  // ---------------------------------------------------------------------
  // Scalars
  // ---------------------------------------------------------------------

  function DecodeBool(j: Json): Decoded<bool>
  {
    if j.Bool? then Ok(j.b) else Err(InvalidType("boolean"))
  }

  function EncodeString(s: string): Json
  {
    Str(s)
  }

  function EncodeU8(n: U8): Json
  {
    Num(n)
  }

  function DecodeString(j: Json): Decoded<string>
  {
    if j.Str? then Ok(j.s) else Err(InvalidType("string"))
  }

  /** A JSON number read as a Rust integer type whose values are lo..hi. */
  function DecodeInteger(j: Json, lo: int, hi: int): (r: Decoded<int>)
    ensures r.Ok? <==> j.Num? && lo <= j.n <= hi
    ensures r.Ok? ==> r.value == j.n
  {
    match j
    case Num(n) => if lo <= n <= hi then Ok(n) else Err(InvalidInteger)
    case _ => Err(InvalidType("integer"))
  }

  function DecodeU8(j: Json): Decoded<U8>
  {
    var n :- DecodeInteger(j, 0, 0xff);
    Ok(n)
  }

  function DecodeU32(j: Json): Decoded<U32>
  {
    var n :- DecodeInteger(j, 0, U32_LIMIT - 1);
    Ok(n)
  }

  function EncodeU64(n: U64): Json
  {
    Num(n)
  }

  function DecodeU64(j: Json): Decoded<U64>
  {
    var n :- DecodeInteger(j, 0, U64_LIMIT - 1);
    Ok(n)
  }

  function DecodeI32(j: Json): Decoded<I32>
  {
    var n :- DecodeInteger(j, -0x8000_0000, 0x7fff_ffff);
    Ok(n)
  }

  // ---------------------------------------------------------------------
  // Byte strings, written as hex text
  // ---------------------------------------------------------------------

  function EncodeBytes(b: seq<Byte>): Json
  {
    Str(HexText(b))
  }

  function EncodeAddress(a: Address): Json
  {
    EncodeBytes(a)
  }

  function EncodeB256(h: B256): Json
  {
    EncodeBytes(h)
  }

  /** Hex text of any length (alloy's Bytes). */
  function DecodeBytes(j: Json): Decoded<seq<Byte>>
  {
    var s :- DecodeString(j);
    match ParseHexText(s)
    case Some(b) => Ok(b)
    case None => Err(MalformedHex)
  }

  /** Hex text that must hold exactly `len` bytes (alloy's FixedBytes<len>). */
  function DecodeFixedBytes(j: Json, len: nat): (r: Decoded<seq<Byte>>)
    ensures r.Ok? ==> |r.value| == len
  {
    var b :- DecodeBytes(j);
    if |b| == len then Ok(b) else Err(MalformedHex)
  }

  function DecodeAddress(j: Json): Decoded<Address>
  {
    var b :- DecodeFixedBytes(j, 20);
    Ok(b)
  }

  function DecodeB256(j: Json): Decoded<B256>
  {
    var b :- DecodeFixedBytes(j, 32);
    Ok(b)
  }

  function DecodeBytes56(j: Json): Decoded<Bytes56>
  {
    var b :- DecodeFixedBytes(j, 56);
    Ok(b)
  }

  lemma BytesRoundTrip(b: seq<Byte>)
    ensures DecodeBytes(EncodeBytes(b)) == Ok(b)
  {
    HexTextRoundTrip(b);
  }

  /** A fixed-length byte string reads back exactly, and text of any other length is refused. */
  lemma FixedBytesRoundTrip(b: seq<Byte>, len: nat)
    ensures DecodeFixedBytes(EncodeBytes(b), len) == if |b| == len then Ok(b) else Err(MalformedHex)
  {
    BytesRoundTrip(b);
  }

  lemma AddressRoundTrip(a: Address)
    ensures DecodeAddress(EncodeAddress(a)) == Ok(a)
  {
    FixedBytesRoundTrip(a, 20);
  }

  lemma B256RoundTrip(h: B256)
    ensures DecodeB256(EncodeB256(h)) == Ok(h)
  {
    FixedBytesRoundTrip(h, 32);
  }

  lemma Bytes56RoundTrip(u: Bytes56)
    ensures DecodeBytes56(EncodeBytes(u)) == Ok(u)
  {
    FixedBytesRoundTrip(u, 56);
  }

  // ---------------------------------------------------------------------
  // Values whose text belongs to other libraries
  // ---------------------------------------------------------------------

  function EncodeU256(n: U256): Json
  {
    Leaf(Quantity(n))
  }

  function DecodeU256(j: Json): Decoded<U256>
  {
    match j
    case Leaf(Quantity(n)) => if 0 <= n < U256_LIMIT then Ok(n) else Err(InvalidInteger)
    case _ => Err(InvalidType("U256"))
  }

  function EncodeDecimal(d: BigDecimal): Json
  {
    Leaf(Decimal(d))
  }

  function DecodeDecimal(j: Json): Decoded<BigDecimal>
  {
    match j
    case Leaf(Decimal(d)) => Ok(d)
    case _ => Err(InvalidType("BigDecimal"))
  }

  function EncodeF64(f: F64): Json
  {
    Leaf(Float(f))
  }

  function DecodeF64(j: Json): Decoded<F64>
  {
    match j
    case Leaf(Float(f)) => Ok(f)
    case _ => Err(InvalidType("f64"))
  }

  function EncodeDateTime(t: DateTime): Json
  {
    Leaf(Time(t))
  }

  function DecodeDateTime(j: Json): Decoded<DateTime>
  {
    match j
    case Leaf(Time(t)) => Ok(t)
    case _ => Err(InvalidType("date-time"))
  }

  function EncodeAccessList(a: AccessList): Json
  {
    Leaf(Access(a))
  }

  function DecodeAccessList(j: Json): Decoded<AccessList>
  {
    match j
    case Leaf(Access(a)) => Ok(a)
    case _ => Err(InvalidType("access list"))
  }

  // ---------------------------------------------------------------------
  // Integers written as decimal strings (serde_with DisplayFromStr)
  // ---------------------------------------------------------------------

  function EncodeDisplay(i: int): Json
  {
    Str(DecimalText.IntText(i))
  }

  function DecodeDisplay(j: Json, lo: int, hi: int): (r: Decoded<int>)
    ensures r.Ok? ==> lo <= r.value <= hi
  {
    var s :- DecodeString(j);
    match DecimalText.ParseInt(s, lo, hi)
    case Some(i) => Ok(i)
    case None => Err(InvalidInteger)
  }

  /** An integer of the type's range is written as a string and read back unchanged. */
  lemma DisplayRoundTrip(i: int, lo: int, hi: int)
    requires lo <= i <= hi
    ensures DecodeDisplay(EncodeDisplay(i), lo, hi) == Ok(i)
  {
    DecimalText.IntTextRoundTrip(i, lo, hi);
  }

  function EncodeI64Text(i: I64): Json
  {
    EncodeDisplay(i)
  }

  function EncodeU128Text(n: U128): Json
  {
    EncodeDisplay(n)
  }

  function EncodeI128Text(i: I128): Json
  {
    EncodeDisplay(i)
  }

  function DecodeI64Text(j: Json): Decoded<I64>
  {
    var n :- DecodeDisplay(j, -0x8000_0000_0000_0000, 0x7fff_ffff_ffff_ffff);
    Ok(n)
  }

  function DecodeU128Text(j: Json): Decoded<U128>
  {
    var n :- DecodeDisplay(j, 0, U128_LIMIT - 1);
    Ok(n)
  }

  function DecodeI128Text(j: Json): Decoded<I128>
  {
    var n :- DecodeDisplay(j, -0x8000_0000_0000_0000_0000_0000_0000_0000, 0x7fff_ffff_ffff_ffff_ffff_ffff_ffff_ffff);
    Ok(n)
  }

  /** The three DisplayFromStr widths of the schema read back their own text. */
  lemma TextIntegersRoundTrip(a: I64, b: U128, c: I128)
    ensures DecodeI64Text(EncodeI64Text(a)) == Ok(a)
    ensures DecodeU128Text(EncodeU128Text(b)) == Ok(b)
    ensures DecodeI128Text(EncodeI128Text(c)) == Ok(c)
  {
    DisplayRoundTrip(a, -0x8000_0000_0000_0000, 0x7fff_ffff_ffff_ffff);
    DisplayRoundTrip(b, 0, U128_LIMIT - 1);
    DisplayRoundTrip(c, -0x8000_0000_0000_0000_0000_0000_0000_0000, 0x7fff_ffff_ffff_ffff_ffff_ffff_ffff_ffff);
  }

  /** A bare JSON number is not accepted where DisplayFromStr expects a string. */
  lemma DisplayRefusesNumber(n: int, lo: int, hi: int)
    ensures DecodeDisplay(Num(n), lo, hi) == Err(InvalidType("string"))
  {
  }

  // ---------------------------------------------------------------------
  // Option<T>: null for None; on decode, null and an absent field are None
  // ---------------------------------------------------------------------

  function EncodeOption<T>(o: Option<T>, enc: T -> Json): Json
  {
    match o
    case None => Null
    case Some(x) => enc(x)
  }

  function DecodeOption<T>(j: Json, dec: Json -> Decoded<T>): Decoded<Option<T>>
  {
    if j == Null then Ok(None)
    else
      var x :- dec(j);
      Ok(Some(x))
  }

  lemma OptionRoundTrip<T>(o: Option<T>, enc: T -> Json, dec: Json -> Decoded<T>)
    requires forall x :: dec(enc(x)) == Ok(x)
    requires forall x :: enc(x) != Null
    ensures DecodeOption(EncodeOption(o, enc), dec) == Ok(o)
  {
  }

  // ---------------------------------------------------------------------
  // Vec<T>: an array, element by element
  // ---------------------------------------------------------------------

  function EncodeSeq<T>(xs: seq<T>, enc: T -> Json): (j: Json)
    ensures j.Arr? && |j.items| == |xs|
    ensures forall i :: 0 <= i < |xs| ==> j.items[i] == enc(xs[i])
  {
    Arr(seq(|xs|, i requires 0 <= i < |xs| => enc(xs[i])))
  }

  function DecodeItems<T>(items: seq<Json>, dec: Json -> Decoded<T>): Decoded<seq<T>>
  {
    if items == [] then Ok([])
    else
      var x :- dec(items[0]);
      var rest :- DecodeItems(items[1..], dec);
      Ok([x] + rest)
  }

  function DecodeSeq<T>(j: Json, dec: Json -> Decoded<T>): Decoded<seq<T>>
  {
    match j
    case Arr(items) => DecodeItems(items, dec)
    case _ => Err(InvalidType("sequence"))
  }

  lemma {:induction false} ItemsRoundTrip<T>(xs: seq<T>, enc: T -> Json, dec: Json -> Decoded<T>)
    requires forall x :: dec(enc(x)) == Ok(x)
    ensures DecodeItems(EncodeSeq(xs, enc).items, dec) == Ok(xs)
  {
    if xs != [] {
      ItemsRoundTrip(xs[1..], enc, dec);
      assert EncodeSeq(xs, enc).items[1..] == EncodeSeq(xs[1..], enc).items;
      assert [xs[0]] + xs[1..] == xs;
    }
  }

  /** A sequence reads back element for element when each element does. */
  lemma SeqRoundTrip<T>(xs: seq<T>, enc: T -> Json, dec: Json -> Decoded<T>)
    requires forall x :: dec(enc(x)) == Ok(x)
    ensures DecodeSeq(EncodeSeq(xs, enc), dec) == Ok(xs)
  {
    ItemsRoundTrip(xs, enc, dec);
  }

  // ---------------------------------------------------------------------
  // HashMap<K, V>: an object keyed by the text of each key
  // ---------------------------------------------------------------------

  /** Distinct keys have distinct texts, so no two entries share an object key. */
  ghost predicate InjectiveText<K(!new)>(keyText: K -> string)
  {
    forall a, b :: keyText(a) == keyText(b) ==> a == b
  }

  /** A key text that can be read back is injective. */
  lemma InjectiveFromInverse<K(!new)>(keyText: K -> string, keyOf: string -> Option<K>)
    requires forall k :: keyOf(keyText(k)) == Some(k)
    ensures InjectiveText(keyText)
  {
    forall a, b | keyText(a) == keyText(b) ensures a == b {
      assert Some(a) == keyOf(keyText(b));
    }
  }

  function EncodeKeyedMap<K(!new), V>(m: map<K, V>, keyText: K -> string, enc: V -> Json): Json
    requires InjectiveText(keyText)
  {
    Obj(map k | k in m :: keyText(k) := enc(m[k]))
  }

  /** The map an object of well-formed entries with distinct keys stands for: one entry per object key. */
  function KeyedTable<K, V>(o: map<string, Json>, keyOf: string -> Option<K>, dec: Json -> Decoded<V>): (r: map<K, V>)
    requires forall k | k in o :: keyOf(k).Some? && dec(o[k]).Ok?
    requires forall k1, k2 | k1 in o && k2 in o && keyOf(k1) == keyOf(k2) :: k1 == k2
    ensures forall k | k in o :: keyOf(k).value in r && Ok(r[keyOf(k).value]) == dec(o[k])
    ensures forall x | x in r :: exists k | k in o :: keyOf(k) == Some(x)
  {
    map k | k in o :: keyOf(k).value := dec(o[k]).value
  }

  /**
   * Every object key must denote a key (else `badKey`), every value must
   * decode, and no two object keys may denote the same key.
   */
  function DecodeKeyedMap<K, V>(j: Json, keyOf: string -> Option<K>, dec: Json -> Decoded<V>, badKey: DecodeError): Decoded<map<K, V>>
  {
    match j
    case Obj(o) =>
      if !(forall k | k in o :: keyOf(k).Some?) then Err(badKey)
      else if !(forall k | k in o :: dec(o[k]).Ok?) then Err(InvalidEntry)
      else if !(forall k1, k2 | k1 in o && k2 in o && keyOf(k1) == keyOf(k2) :: k1 == k2) then Err(DuplicateKey)
      else Ok(KeyedTable(o, keyOf, dec))
    case _ => Err(InvalidType("map"))
  }

  /** Each entry of an encoded map passes the decoder's checks and denotes its own key and value. */
  lemma KeyedMapEntries<K(!new), V>(m: map<K, V>, keyText: K -> string, keyOf: string -> Option<K>,
                                     enc: V -> Json, dec: Json -> Decoded<V>)
    requires forall k :: keyOf(keyText(k)) == Some(k)
    requires forall v :: dec(enc(v)) == Ok(v)
    ensures InjectiveText(keyText)
    ensures var o := EncodeKeyedMap(m, keyText, enc).fields;
      && (forall k | k in o :: keyOf(k).Some? && keyOf(k).value in m && dec(o[k]) == Ok(m[keyOf(k).value]))
      && (forall k1, k2 | k1 in o && k2 in o && keyOf(k1) == keyOf(k2) :: k1 == k2)
      && (forall x | x in m :: keyText(x) in o)
  {
    InjectiveFromInverse(keyText, keyOf);
    var o := EncodeKeyedMap(m, keyText, enc).fields;
    forall k | k in o ensures keyOf(k).Some? && keyOf(k).value in m && dec(o[k]) == Ok(m[keyOf(k).value]) {
      var x :| x in m && k == keyText(x);
    }
    forall k1, k2 | k1 in o && k2 in o && keyOf(k1) == keyOf(k2) ensures k1 == k2 {
      var x1 :| x1 in m && k1 == keyText(x1);
      var x2 :| x2 in m && k2 == keyText(x2);
    }
  }

  /** An object whose entries pass every check decodes to the table it stands for. */
  lemma KeyedMapAccepts<K, V>(o: map<string, Json>, keyOf: string -> Option<K>, dec: Json -> Decoded<V>, badKey: DecodeError)
    requires forall k | k in o :: keyOf(k).Some? && dec(o[k]).Ok?
    requires forall k1, k2 | k1 in o && k2 in o && keyOf(k1) == keyOf(k2) :: k1 == k2
    ensures DecodeKeyedMap(Obj(o), keyOf, dec, badKey) == Ok(KeyedTable(o, keyOf, dec))
  {
  }

  /** The table of an object whose entries denote exactly the entries of `m` is `m`. */
  lemma KeyedTableOf<K, V>(m: map<K, V>, o: map<string, Json>, keyText: K -> string, keyOf: string -> Option<K>,
                           dec: Json -> Decoded<V>)
    requires forall k | k in o :: keyOf(k).Some? && keyOf(k).value in m && dec(o[k]) == Ok(m[keyOf(k).value])
    requires forall k1, k2 | k1 in o && k2 in o && keyOf(k1) == keyOf(k2) :: k1 == k2
    requires forall x | x in m :: keyText(x) in o && keyOf(keyText(x)) == Some(x)
    ensures KeyedTable(o, keyOf, dec) == m
  {
    var r := KeyedTable(o, keyOf, dec);
    forall x | x in m ensures x in r && r[x] == m[x] {
      assert keyText(x) in o;
    }
    forall x | x in r ensures x in m {
      var k :| k in o && keyOf(k) == Some(x);
    }
  }

  /** A map reads back entry for entry when keys and values each read back. */
  lemma KeyedMapRoundTrip<K(!new), V>(m: map<K, V>, keyText: K -> string, keyOf: string -> Option<K>,
                                       enc: V -> Json, dec: Json -> Decoded<V>, badKey: DecodeError)
    requires forall k :: keyOf(keyText(k)) == Some(k)
    requires forall v :: dec(enc(v)) == Ok(v)
    ensures InjectiveText(keyText)
    ensures DecodeKeyedMap(EncodeKeyedMap(m, keyText, enc), keyOf, dec, badKey) == Ok(m)
  {
    KeyedMapEntries(m, keyText, keyOf, enc, dec);
    var o := EncodeKeyedMap(m, keyText, enc).fields;
    KeyedMapAccepts(o, keyOf, dec, badKey);
    KeyedTableOf(m, o, keyText, keyOf, dec);
  }

  /** Two object keys that denote the same key are refused. */
  lemma KeyedMapRefusesAliases<K, V>(o: map<string, Json>, keyOf: string -> Option<K>, dec: Json -> Decoded<V>,
                                     badKey: DecodeError, k1: string, k2: string)
    requires k1 in o && k2 in o && k1 != k2 && keyOf(k1) == keyOf(k2)
    ensures DecodeKeyedMap(Obj(o), keyOf, dec, badKey).Err?
  {
  }

  // HashMap<Address, V>: keys are the addresses' hex text.

  function AddressText(a: Address): string
  {
    HexText(a)
  }

  /** The address an object key spells, if it is the hex text of exactly 20 bytes. */
  function AddressOfKey(k: string): (r: Option<Address>)
    ensures r.Some? ==> k == HexText(r.value)
  {
    match ParseHexText(k)
    case Some(b) =>
      if |b| == 20 then
        HexTextCanonical(k, b);
        Some(b)
      else None
    case None => None
  }

  lemma AddressKeyRoundTrip()
    ensures forall a: Address :: AddressOfKey(AddressText(a)) == Some(a)
  {
    forall a: Address ensures AddressOfKey(AddressText(a)) == Some(a) {
      HexTextRoundTrip(a);
    }
  }

  function EncodeAddressMap<V>(m: map<Address, V>, enc: V -> Json): Json
  {
    AddressKeyRoundTrip();
    InjectiveFromInverse(AddressText, AddressOfKey);
    EncodeKeyedMap(m, AddressText, enc)
  }

  function DecodeAddressMap<V>(j: Json, dec: Json -> Decoded<V>): Decoded<map<Address, V>>
  {
    DecodeKeyedMap(j, AddressOfKey, dec, MalformedHex)
  }

  /** A map keyed by addresses reads back entry for entry when each value does. */
  lemma AddressMapRoundTrip<V>(m: map<Address, V>, enc: V -> Json, dec: Json -> Decoded<V>)
    requires forall v :: dec(enc(v)) == Ok(v)
    ensures DecodeAddressMap(EncodeAddressMap(m, enc), dec) == Ok(m)
  {
    AddressKeyRoundTrip();
    KeyedMapRoundTrip(m, AddressText, AddressOfKey, enc, dec, MalformedHex);
  }

  // ---------------------------------------------------------------------
  // Structs and enums
  // ---------------------------------------------------------------------

  /** A struct is an object; fields the struct does not know are ignored. */
  function DecodeObject(j: Json): (r: Decoded<map<string, Json>>)
    ensures r.Ok? <==> j.Obj?
  {
    match j
    case Obj(m) => Ok(m)
    case _ => Err(InvalidType("object"))
  }

  /** A required field: absent is an error. */
  function Field<T>(m: map<string, Json>, name: string, dec: Json -> Decoded<T>): Decoded<T>
  {
    if name in m then dec(m[name]) else Err(MissingField(name))
  }

  /** An Option<T> field: absent or null is None. */
  function OptionField<T>(m: map<string, Json>, name: string, dec: Json -> Decoded<T>): Decoded<Option<T>>
  {
    if name in m then DecodeOption(m[name], dec) else Ok(None)
  }

  /** A #[serde(default)] field: absent is the default value. */
  function DefaultField<T>(m: map<string, Json>, name: string, dec: Json -> Decoded<T>, default: T): Decoded<T>
  {
    if name in m then dec(m[name]) else Ok(default)
  }

  /** Removing other keys leaves a field's reading unchanged. */
  lemma FieldsWithout<T>(m: map<string, Json>, removed: set<string>, name: string, dec: Json -> Decoded<T>, default: T)
    requires name !in removed
    ensures Field(m - removed, name, dec) == Field(m, name, dec)
    ensures OptionField(m - removed, name, dec) == OptionField(m, name, dec)
    ensures DefaultField(m - removed, name, dec, default) == DefaultField(m, name, dec, default)
  {
  }

  /** A unit-only enum is written as the variant's name; a name outside the table is refused. */
  function DecodeName<T>(j: Json, fromName: string -> Option<T>): (r: Decoded<T>)
    ensures r.Ok? <==> j.Str? && fromName(j.s).Some?
    ensures r.Ok? ==> r.value == fromName(j.s).value
  {
    match j
    case Str(s) =>
      (match fromName(s)
       case Some(x) => Ok(x)
       case None => Err(UnknownVariant(s)))
    case _ => Err(InvalidType("string"))
  }

  /** The tag of an internally tagged enum: a string under the key `tag`. */
  function DecodeTag(m: map<string, Json>, tag: string): (r: Decoded<string>)
    ensures r.Ok? <==> tag in m && m[tag].Str?
    ensures r.Ok? ==> r.value == m[tag].s
  {
    if tag !in m then Err(MissingField(tag))
    else
      match m[tag]
      case Str(t) => Ok(t)
      case _ => Err(InvalidType("string"))
  }

  /**
   * An internally tagged enum variant: the payload's entries with the tag
   * entry added. Serde refuses to serialize a payload that is not a map, so
   * only objects are tagged.
   */
  function TagObject(tag: string, name: string, payload: map<string, Json>): (r: Json)
    ensures r.Obj? && tag in r.fields && r.fields[tag] == Str(name)
    ensures forall k | k in payload && k != tag :: k in r.fields && r.fields[k] == payload[k]
  {
    Obj(payload[tag := Str(name)])
  }

  /**
   * The reader of an internally tagged enum: the tag picks the variant, whose
   * payload is read from the remaining entries.
   */
  function DecodeTagged<T>(j: Json, tag: string, variant: (string, Json) -> Decoded<T>): Decoded<T>
  {
    var m :- DecodeObject(j);
    var name :- DecodeTag(m, tag);
    variant(name, Obj(m - {tag}))
  }

  /** Tagging adds exactly the tag entry: removing it again leaves the payload. */
  lemma TagObjectShape(tag: string, name: string, payload: map<string, Json>)
    requires tag !in payload
    ensures TagObject(tag, name, payload).fields.Keys == payload.Keys + {tag}
    ensures TagObject(tag, name, payload).fields - {tag} == payload
  {
    assert payload[tag := Str(name)] - {tag} == payload;
  }

  /** A tagged payload that does not itself use the tag key reads back through its variant. */
  lemma TaggedRoundTrip<T>(tag: string, name: string, payload: map<string, Json>,
                           variant: (string, Json) -> Decoded<T>)
    requires tag !in payload
    ensures DecodeTagged(TagObject(tag, name, payload), tag, variant) == variant(name, Obj(payload))
  {
    assert payload[tag := Str(name)] - {tag} == payload;
  }

  /**
   * An Option<T> field marked skip_serializing_if = "Option::is_none": the
   * entry is written only for Some.
   */
  function PutIfSome<T>(m: map<string, Json>, name: string, o: Option<T>, enc: T -> Json): (r: map<string, Json>)
    ensures name in r <==> o.Some? || name in m
    ensures forall k | k in m && k != name :: k in r && r[k] == m[k]
    ensures forall k | k in r && k != name :: k in m
  {
    match o
    case None => m
    case Some(v) => m[name := enc(v)]
  }

  /** A skipped None reads back as None, since an absent Option field is None. */
  lemma PutIfSomeRoundTrip<T>(m: map<string, Json>, name: string, o: Option<T>, enc: T -> Json, dec: Json -> Decoded<T>)
    requires name !in m
    requires forall v :: dec(enc(v)) == Ok(v)
    requires forall v :: enc(v) != Null
    ensures name in PutIfSome(m, name, o, enc) <==> o.Some?
    ensures OptionField(PutIfSome(m, name, o, enc), name, dec) == Ok(o)
  {
  }
}
