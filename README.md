# CoW Protocol solver DTOs, modelled in Dafny

This project models the data-transfer objects that a CoW Protocol solver
exchanges with the driver:

- the auction it is given (`Auction`, with its orders, tokens and liquidity
  sources);
- the solutions it returns (`Solutions`, `Solution`, `Trade`, `Interaction`);
- the notifications it receives about what happened to a solution
  (`Notification`);
- the 56-byte order uid.

Each Rust type becomes a Dafny datatype. Its serde `Serialize` and
`Deserialize` become an `EncodeX` and a `DecodeX` function between that
datatype and an abstract JSON value (`Json.Json`). The lemmas prove these
properties:

- every value reads back unchanged after it is written;
- tags, renamed fields, defaults, omitted fields, untagged unions and
  flattened enums follow the serde attributes on the Rust types;
- the decoders refuse unknown tags and malformed input with the error the
  model names.

`OrderUid::from_parts` works in place on a buffer, so it is modelled as a
method over an `array`. `CopyFromSlice` stands for `copy_from_slice`.
`OrderUid::parts` is pure and is modelled as a function. Lemmas prove that
packing and splitting are mutually inverse.

Modules, one per file:

| file | module | contents |
|---|---|---|
| `wrappers.dfy` | `Wrappers` | `Option` and `Result` |
| `primitives.dfy` | `Primitives` | Rust integer widths, byte strings, lower-case `0x` hex text, byte-wise order on addresses |
| `decimal_text.dfy` | `DecimalText` | `Display` and `FromStr` for integers (serde_with `DisplayFromStr`) |
| `json.dfy` | `Json` | abstract JSON, decode errors, struct fields, options, sequences, maps with text keys, internally tagged enums |
| `address_set.dfy` | `AddressSet` | `BTreeSet<Address>` as a strictly increasing sequence |
| `order_uid.dfy` | `OrderUidCodec` | `OrderUid`, `from_parts`, `parts` |
| `auction.dfy` | `AuctionSchema` | `src/auction.rs` |
| `solution.dfy` | `SolutionSchema` | `src/solution.rs` |
| `notification.dfy` | `NotificationSchema` | `src/notification.rs` |

Integers carry their Rust range as a subset type (`U32`, `U64`, `I64`,
`U256` and so on). A decoder refuses an out-of-range number with
`InvalidInteger`. Some values are written as text by libraries outside this
model:

- `U256` quantities;
- `BigDecimal`;
- `f64`;
- chrono date-times;
- access lists.

These values are opaque `Leaf` values of the JSON model. Their decoders
accept exactly what their encoders write.

## Model

| member | source | states |
|---|---|---|
| OrderUidCodec.FromParts | src/order_uid.rs:10-16 | The uid holds the hash in bytes 0..32, the owner in bytes 32..52 and validTo big-endian in bytes 52..56; the last four bytes read back as validTo |
| OrderUidCodec.CopyFromSlice | src/order_uid.rs:12-14 | Copying a slice into buf[start..start+len] writes exactly the slice there and leaves every other byte of the buffer unchanged |
| OrderUidCodec.BigEndianRoundTrip | src/order_uid.rs:14-20 | u32::from_be_bytes inverts u32::to_be_bytes for every u32 |
| OrderUidCodec.FromBigEndianRoundTrip | src/order_uid.rs:20 | Every 4-byte string is the big-endian encoding of the u32 it decodes to |
| OrderUidCodec.PartsOfLayout | src/order_uid.rs:19-21 | Splitting a uid packed from (hash, owner, validTo) gives back exactly that triple |
| OrderUidCodec.LayoutOfParts | src/order_uid.rs:19-21 | Every 56-byte uid is rebuilt by packing its own parts, so the three slices tile the whole uid |
| OrderUidCodec.LayoutInjective | src/order_uid.rs:10-16 | Two different triples never pack to the same uid |
| OrderUidCodec.PartsExample | src/order_uid.rs:28-32 | The unit test: hash of 0x01 bytes, owner of 0x02 bytes and validTo 123 split back into the same values |
| OrderUidCodec.OrderUidRoundTrip | src/order_uid.rs:5-6 | A uid written as hex text of its 56 bytes reads back unchanged |
| OrderUidCodec.OrderUidRefusesWrongLength | src/order_uid.rs:5-6 | Hex text of any length other than 56 bytes is refused with MalformedHex |
| Primitives.HexTextRoundTrip | src/auction.rs:26-28 | An address, hash or byte string written as 0x-prefixed hex reads back unchanged |
| Primitives.HexTextCanonical | src/auction.rs:15 | Hex text that the model's lower-case-only decoder accepts is exactly the text the encoder writes for those bytes, so in this model a map key has one spelling per address |
| Primitives.HexTextInjective | src/auction.rs:15 | Different byte strings have different hex text |
| Primitives.BelowTransitive | src/notification.rs:48-50 | The byte-wise order on addresses that orders a BTreeSet is transitive |
| Primitives.BelowTotal | src/notification.rs:48-50 | Of two different addresses, one is below the other |
| Primitives.BelowAsymmetric | src/notification.rs:48-50 | No two addresses are each below the other |
| DecimalText.NatTextValue | src/auction.rs:13-14 | The decimal text of a natural number parses back to that number |
| DecimalText.DigitsValueLeadingZero | src/auction.rs:219-220 | Leading zeros do not change the value FromStr reads from a run of digits |
| DecimalText.DigitsValueDefined | src/auction.rs:13-14 | A string has a decimal value exactly when it is made of digits only |
| DecimalText.IntTextRoundTrip | src/auction.rs:13-14 | Display then FromStr returns any integer inside the type's range |
| DecimalText.UnsignedRefusesMinus | src/auction.rs:216-217 | Text with a leading minus never parses as an unsigned integer |
| DecimalText.ParseIntInRange | src/auction.rs:216-217 | A parsed integer always lies inside the target type's range |
| Json.DecodeInteger | src/auction.rs:34 | A JSON number is accepted as a Rust integer exactly when it lies inside the type's range, and then it is that number |
| Json.FixedBytesRoundTrip | src/auction.rs:44 | Fixed-size bytes read back unchanged when the length is right; any other length gives MalformedHex |
| Json.AddressRoundTrip | src/auction.rs:27-28 | An address reads back unchanged |
| Json.B256RoundTrip | src/auction.rs:44 | A 32-byte hash reads back unchanged |
| Json.BytesRoundTrip | src/auction.rs:46 | A byte string of any length reads back unchanged |
| Json.DisplayRoundTrip | src/auction.rs:13-14 | An integer written with DisplayFromStr reads back unchanged |
| Json.TextIntegersRoundTrip | src/auction.rs:216-220 | The i64 auction id, the u128 liquidity and the i128 liquidity-net values read back unchanged from their decimal text |
| Json.DisplayRefusesNumber | src/auction.rs:13-14 | A DisplayFromStr field refuses a bare JSON number |
| Json.OptionRoundTrip | src/auction.rs:125-127 | An Option field reads back unchanged; None is written as null |
| Json.SeqRoundTrip | src/auction.rs:16-17 | A Vec reads back unchanged, element by element |
| Json.KeyedMapRoundTrip | src/auction.rs:15 | A HashMap whose keys are written as text reads back as the same map |
| Json.KeyedMapRefusesAliases | src/auction.rs:219-220 | An object with two keys that denote the same map key is refused; serde would keep the last of them instead (see Left out) |
| Json.AddressMapRoundTrip | src/auction.rs:15 | A HashMap keyed by address reads back as the same map |
| Json.DecodeObject | src/auction.rs:10-12 | A struct decodes only from a JSON object |
| Json.DecodeName | src/auction.rs:51-58 | A unit enum decodes only from a string in its name table, and to the variant with that name |
| Json.DecodeTag | src/auction.rs:134 | The "kind" tag is read only when it is present and is a string |
| Json.TagObject | src/auction.rs:134 | An internally tagged value is its payload object with the tag added |
| Json.TagObjectShape | src/auction.rs:134 | The tagged object's keys are the payload's plus the tag, and removing the tag gives back the payload |
| Json.TaggedRoundTrip | src/auction.rs:134-141 | Decoding a tagged object hands the variant decoder the tag's name and the payload without the tag |
| Json.PutIfSomeRoundTrip | src/solution.rs:23-24 | A skip_serializing_if Option field is present exactly when it is Some, and reads back unchanged |
| Json.FieldsWithout | src/notification.rs:17-18 | Removing other keys from an object changes neither a required, an optional nor a defaulted field |
| AddressSet.Insert | src/notification.rs:48-50 | Inserting into a strictly sorted set keeps it strictly sorted and adds exactly the new element |
| AddressSet.FromSeq | src/notification.rs:48-50 | Collecting a list into a set gives a strictly sorted sequence with the same elements |
| AddressSet.InsertLast | src/notification.rs:48-50 | Inserting an element above every member appends it |
| AddressSet.FromSortedSeq | src/notification.rs:48-50 | Collecting an already strictly sorted list changes nothing |
| AddressSet.SortedUnique | src/notification.rs:48-50 | Two strictly sorted sequences with the same elements are equal |
| AddressSet.NoElements | src/notification.rs:48-50 | A set has no elements exactly when it is empty |
| AddressSet.FromSeqCanonical | src/notification.rs:48-50 | Lists with the same elements collect to the same set, whatever their order and repetitions |
| AuctionSchema.BuyTokenDestinationNames | src/auction.rs:51-58 | The snake_case names "erc20" and "internal" identify the variants one-to-one |
| AuctionSchema.SellTokenSourceNames | src/auction.rs:61-70 | The snake_case names "erc20", "external" and "internal" identify the variants one-to-one |
| AuctionSchema.SigningSchemeNames | src/auction.rs:80-87 | The lowercase names "eip712", "ethsign", "eip1271" and "presign" identify the schemes one-to-one |
| AuctionSchema.KindNames | src/auction.rs:89-94 | "sell" and "buy" identify the order kinds one-to-one |
| AuctionSchema.ClassNames | src/auction.rs:96-101 | "market" and "limit" identify the order classes one-to-one |
| AuctionSchema.WeightedProductVersionNames | src/auction.rs:180-185 | "v0" and "v3Plus" identify the versions one-to-one |
| AuctionSchema.UnitEnumsRoundTrip | src/auction.rs:49-101 | Every unit enum of the auction reads back unchanged |
| AuctionSchema.InteractionDataRoundTrip | src/auction.rs:72-78 | An interaction with target, value and callData reads back unchanged |
| AuctionSchema.QuoteRoundTrip | src/auction.rs:114-120 | A quote reads back unchanged |
| AuctionSchema.TokenRoundTrip | src/auction.rs:122-130 | Token metadata, including its three optional fields, reads back unchanged |
| AuctionSchema.FeePolicyRoundTrip | src/auction.rs:103-112 | An externally tagged fee policy reads back unchanged |
| AuctionSchema.FeePolicyShape | src/auction.rs:103-112 | A fee policy is written as an object with one key, "surplus", "priceImprovement" or "volume" |
| AuctionSchema.FeePolicySingleKey | src/auction.rs:103-112 | A one-key object decodes as the variant that its key names |
| AuctionSchema.FeePoliciesRoundTrip | src/auction.rs:33 | A list of fee policies reads back unchanged |
| AuctionSchema.InteractionsRoundTrip | src/auction.rs:39-40 | The pre- and post-interaction lists read back unchanged |
| AuctionSchema.OrderRoundTrip | src/auction.rs:23-47 | An order, with all 21 fields, reads back unchanged |
| AuctionSchema.ReserveRoundTrip | src/auction.rs:154-204 | The constant-product, weighted-product and stable reserves read back unchanged |
| AuctionSchema.ConstantProductReservesRoundTrip | src/auction.rs:150 | The reserve map keyed by token address reads back unchanged |
| AuctionSchema.WeightedProductReservesRoundTrip | src/auction.rs:167 | The weighted reserve map reads back unchanged |
| AuctionSchema.StableReservesRoundTrip | src/auction.rs:194 | The stable reserve map reads back unchanged |
| AuctionSchema.TickKeyOtherSpellings | src/auction.rs:219-220 | A key with a leading '+' or a leading zero reads as the same tick as its plain decimal text, as i32's FromStr does |
| AuctionSchema.TickKeyOutOfRange | src/auction.rs:219-220 | Decimal text of a number above 2^31-1, or a negated number below -2^31, is not a tick |
| AuctionSchema.TickKeyRoundTrip | src/auction.rs:219-220 | Every i32 tick written as decimal text parses back to itself |
| AuctionSchema.LiquidityNetRoundTrip | src/auction.rs:219-220 | A map from i32 ticks to i128 liquidity, with keys and values written as decimal text, reads back unchanged |
| AuctionSchema.LiquidityNetRefusesAliasedTicks | src/auction.rs:219-220 | An object with two keys that parse to the same tick is refused |
| AuctionSchema.ConstantProductPoolRoundTrip | src/auction.rs:143-152 | A constant-product pool reads back unchanged |
| AuctionSchema.ConstantProductPoolUntagged | src/auction.rs:143-152 | A pool's own fields never include "kind", so the Liquidity tag cannot clash with them |
| AuctionSchema.WeightedProductPoolRoundTrip | src/auction.rs:160-170 | A weighted-product pool reads back unchanged |
| AuctionSchema.StablePoolRoundTrip | src/auction.rs:187-197 | A stable pool reads back unchanged |
| AuctionSchema.AddressesRoundTrip | src/auction.rs:214 | A list of addresses reads back unchanged |
| AuctionSchema.ConcentratedLiquidityPoolRoundTrip | src/auction.rs:206-222 | A concentrated-liquidity pool reads back unchanged, including its text-encoded liquidity and liquidity net |
| AuctionSchema.ForeignLimitOrderRoundTrip | src/auction.rs:224-236 | A foreign limit order reads back unchanged |
| AuctionSchema.DecodeLiquidityVariant | src/auction.rs:132-141 | A decoded liquidity source always carries the variant that its "kind" names |
| AuctionSchema.LiquidityVariantRoundTrip | src/auction.rs:132-141 | Each variant's payload decodes back to that variant under its own kind name |
| AuctionSchema.LiquidityRoundTrip | src/auction.rs:132-141 | A liquidity source, tagged by "kind", reads back unchanged |
| AuctionSchema.LiquidityShape | src/auction.rs:132-141 | The written object is the pool's fields plus "kind" holding the camelCase variant name |
| AuctionSchema.LiquidityKindInjective | src/auction.rs:132-141 | Two liquidity sources with the same kind name are the same variant |
| AuctionSchema.LiquidityRefusesUnknownKind | src/auction.rs:132-141 | A "kind" outside the five names is refused as an unknown variant |
| AuctionSchema.LiquidityRequiresKind | src/auction.rs:132-141 | An object without "kind" is refused as a missing field |
| AuctionSchema.TokensRoundTrip | src/auction.rs:15 | The token map keyed by address reads back unchanged |
| AuctionSchema.OrdersRoundTrip | src/auction.rs:16 | The order list reads back unchanged |
| AuctionSchema.LiquiditiesRoundTrip | src/auction.rs:17 | The liquidity list reads back unchanged |
| AuctionSchema.AuctionIdRoundTrip | src/auction.rs:13-14 | The optional i64 id reads back unchanged |
| AuctionSchema.AuctionRoundTrip | src/auction.rs:9-21 | An auction reads back unchanged |
| AuctionSchema.AuctionIdIsText | src/auction.rs:13-14 | The id is written as decimal text, None is written as null, and a bare number is refused |
| AuctionSchema.AuctionIdExample | src/auction.rs:243-251 | An "id" of "9008466" reads as Some(9008466) |
| AuctionSchema.AuctionIdText123 | src/auction.rs:253-268 | The id 123 is written as the text "123" |
| AuctionSchema.AuctionSerializeExample | src/auction.rs:253-268 | The test's auction with id 123 and empty collections is written with id "123" and reads back unchanged |
| SolutionSchema.KindNames | src/solution.rs:71-76 | "sell" and "buy" identify the kinds one-to-one |
| SolutionSchema.SellTokenBalanceNames | src/solution.rs:150-157 | "erc20", "internal" and "external" identify the balances one-to-one |
| SolutionSchema.BuyTokenBalanceNames | src/solution.rs:159-165 | "erc20" and "internal" identify the balances one-to-one |
| SolutionSchema.DefaultSellTokenBalance | src/solution.rs:153-154 | The default sell-token balance is the one named "erc20" |
| SolutionSchema.DefaultBuyTokenBalance | src/solution.rs:162-163 | The default buy-token balance is the one named "erc20" |
| SolutionSchema.SigningSchemeNames | src/solution.rs:167-174 | The camelCase names "eip712", "ethSign", "preSign" and "eip1271" identify the schemes one-to-one |
| SolutionSchema.UnitEnumsRoundTrip | src/solution.rs:71-174 | Every unit enum of the solution reads back unchanged |
| SolutionSchema.AssetRoundTrip | src/solution.rs:133-139 | An asset reads back unchanged |
| SolutionSchema.AllowanceRoundTrip | src/solution.rs:141-148 | An allowance reads back unchanged |
| SolutionSchema.OrderInteractionRoundTrip | src/solution.rs:121-131 | An order interaction, with calldata under "callData", reads back unchanged |
| SolutionSchema.CallRoundTrip | src/solution.rs:85-93 | A call reads back unchanged |
| SolutionSchema.CallShape | src/solution.rs:85-93 | A call is written as exactly "kind": "Call" plus target, value and "callData" |
| SolutionSchema.CallIgnoresTag | src/solution.rs:85-93 | A call decodes from its fields even without the "kind" tag |
| SolutionSchema.CallsRoundTrip | src/solution.rs:19-22 | A list of calls reads back unchanged |
| SolutionSchema.LiquidityInteractionRoundTrip | src/solution.rs:95-105 | A liquidity interaction reads back unchanged |
| SolutionSchema.AllowancesRoundTrip | src/solution.rs:116 | A list of allowances reads back unchanged |
| SolutionSchema.AssetsRoundTrip | src/solution.rs:117-118 | A list of assets reads back unchanged |
| SolutionSchema.CustomInteractionRoundTrip | src/solution.rs:107-119 | A custom interaction reads back unchanged |
| SolutionSchema.DecodeInteractionVariant | src/solution.rs:78-83 | A decoded interaction always carries the variant that its "kind" names |
| SolutionSchema.InteractionPayloadUntagged | src/solution.rs:78-83 | An interaction's own fields never include "kind" |
| SolutionSchema.InteractionRoundTrip | src/solution.rs:78-83 | An interaction tagged "liquidity" or "custom" reads back unchanged |
| SolutionSchema.InteractionRefusesUnknownKind | src/solution.rs:78-83 | Any other "kind" is refused as an unknown variant |
| SolutionSchema.InteractionsRoundTrip | src/solution.rs:20 | A list of interactions reads back unchanged |
| SolutionSchema.FulfillmentRoundTrip | src/solution.rs:34-42 | A fulfillment reads back unchanged |
| SolutionSchema.FulfillmentFeeOmitted | src/solution.rs:40-41 | "fee" is present exactly when the fee is Some |
| SolutionSchema.JitOrderRoundTrip | src/solution.rs:53-69 | A JIT order reads back unchanged |
| SolutionSchema.JitOrderRequiresBalances | src/solution.rs:65-66 | A JIT order without "sellTokenBalance" or "buyTokenBalance" is refused; the enums' defaults do not make the fields optional |
| SolutionSchema.JitTradeRoundTrip | src/solution.rs:44-51 | A JIT trade reads back unchanged |
| SolutionSchema.JitTradeFeeWritten | src/solution.rs:50 | A JIT trade always writes "fee", as null exactly when the fee is None |
| SolutionSchema.DecodeTradeVariant | src/solution.rs:27-32 | A decoded trade always carries the variant that its "kind" names |
| SolutionSchema.TradePayloadUntagged | src/solution.rs:27-32 | A trade's own fields never include "kind" |
| SolutionSchema.TradeRoundTrip | src/solution.rs:27-32 | A trade tagged "fulfillment" or "jit" reads back unchanged |
| SolutionSchema.TradeRefusesUnknownKind | src/solution.rs:27-32 | Any other "kind" is refused as an unknown variant |
| SolutionSchema.TradesRoundTrip | src/solution.rs:17 | A list of trades reads back unchanged |
| SolutionSchema.PricesRoundTrip | src/solution.rs:16 | The price map keyed by token address reads back unchanged |
| SolutionSchema.SolutionGasOmitted | src/solution.rs:23-24 | "gas" is present exactly when the gas is Some, and reads back as the gas |
| SolutionSchema.SolutionRoundTrip | src/solution.rs:11-25 | A solution reads back unchanged |
| SolutionSchema.SolutionInteractionsDefault | src/solution.rs:18-22 | A solution read from an object without pre- or post-interactions has an empty list there |
| SolutionSchema.SolutionGasDefault | src/solution.rs:23-24 | A solution read from an object without "gas" has no gas |
| SolutionSchema.SolutionWithoutCalls | src/solution.rs:18-22 | Dropping both call lists from a written solution reads back as the same solution with empty call lists |
| SolutionSchema.SolutionsRoundTrip | src/solution.rs:5-9 | The list of solutions reads back unchanged |
| NotificationSchema.DecodeSolutionId | src/notification.rs:21-27 | A solution id is Single exactly when the value reads as a u64, and Merged exactly when it does not but reads as a list of u64 |
| NotificationSchema.SolutionIdRoundTrip | src/notification.rs:21-27 | Both forms of a solution id read back unchanged |
| NotificationSchema.SolutionIdShape | src/notification.rs:21-27 | Single is written as a bare number and Merged as an array of numbers, with no tag |
| NotificationSchema.SolutionIdRefusesOthers | src/notification.rs:21-27 | A value that is neither a number nor an array matches no variant |
| NotificationSchema.TxRoundTrip | src/notification.rs:70-79 | A transaction, with its access list under "accessList", reads back unchanged |
| NotificationSchema.TokenSetRoundTrip | src/notification.rs:48-50 | A token set reads back unchanged |
| NotificationSchema.TokenSetFromArray | src/notification.rs:48-50 | Any array of addresses reads as the sorted set of its elements |
| NotificationSchema.TokenSetIgnoresOrder | src/notification.rs:48-50 | Arrays with the same addresses read as the same set, whatever their order |
| NotificationSchema.TokenSetCollapsesDuplicates | src/notification.rs:48-50 | A repeated address is kept once |
| NotificationSchema.TagNames | src/notification.rs:29-66 | The fifteen camelCase variant names identify the notification kinds one-to-one |
| NotificationSchema.DecodeKindBody | src/notification.rs:29-66 | A kind decoded for a tag is always of that tag's variant |
| NotificationSchema.DecodeKindVariant | src/notification.rs:29-66 | A decoded kind always carries the variant that its "kind" names |
| NotificationSchema.KindPayloadKeys | src/notification.rs:17-18 | A kind's own fields never include "kind", "auctionId" or "solutionId", so flattening cannot clash |
| NotificationSchema.KindRoundTrip | src/notification.rs:29-66 | Every notification kind, unit or with fields, reads back unchanged |
| NotificationSchema.UnitKindShape | src/notification.rs:29-66 | A unit kind is written as an object holding only its "kind" name |
| NotificationSchema.KindNameInjective | src/notification.rs:29-66 | Two kinds with the same name are the same variant |
| NotificationSchema.KindRefusesUnknownName | src/notification.rs:29-66 | A "kind" outside the fifteen names is refused as an unknown variant |
| NotificationSchema.NotificationFlattened | src/notification.rs:10-19 | A notification is written as one object: auctionId, solutionId, "kind" and the kind's own fields, with no nested object |
| NotificationSchema.NotificationRoundTrip | src/notification.rs:10-19 | A notification reads back unchanged |
| NotificationSchema.NotificationAuctionIdText | src/notification.rs:14-15 | The auction id is written as decimal text, and a missing "auctionId" reads as None |

## Left out

- Text form of addresses, hashes and byte strings: only the canonical
  lower-case `0x` hex is modelled. alloy also accepts upper-case digits and
  a missing prefix. The decoders here refuse both.
- Text form of `U256`, `BigDecimal`, `f64`, chrono `DateTime` and
  `AccessList`: these come from libraries outside this model. They are
  opaque `Leaf` values whose decoders accept exactly what their encoders
  write. Their own parsing rules and number formats are not modelled.
- JSON text: the model works on an abstract JSON value. Lexing, escaping,
  whitespace, key order and duplicate keys in the text are not modelled.
- serde's other input forms are not modelled:
  - a struct given as a positional array;
  - an enum variant given by its integer index;
  - a unit variant given as `{"name": null}`.
- Error detail is coarse. The model reports one error kind per failure,
  with no field path. When several fields are wrong, the model reports the
  first field in declaration order. serde may report a different one.
- HashMap iteration order is not modelled. Maps are Dafny maps, so the
  order of written keys is not observable.
- Primitives.HexTextCanonical: holds only of the lower-case `0x` decoder
  modelled here. alloy also accepts upper-case and unprefixed hex, so in the
  source "0xAB…" and "0xab…" are two spellings of one `HashMap<Address, _>`
  key, and serde keeps the entry that comes last in the text. The model has
  no key order and does not accept those spellings.
- Json.KeyedMapRefusesAliases: when two keys of an object denote the same
  map key, serde inserts entry by entry and keeps the last one. The model's
  objects have no key order, so it refuses such an object instead.
- AuctionSchema.LiquidityNetRefusesAliasedTicks: two keys such as "7" and
  "07" that parse to the same tick make the model refuse the object.
  serde_with's `HashMap<DisplayFromStr, DisplayFromStr>` would keep the last
  of them, which depends on the key order of the text.
- AuctionSchema.AuctionIdExample: the test at src/auction.rs:243-251 reads
  the auction from resources/response_auction.json. That file is not part of
  this model, so only the reading of its id text "9008466" is modelled.
- SolutionSchema.CallIgnoresTag: the "kind" key that `#[serde(tag)]` puts on
  `Call` is written as "Call" and ignored on decode. The model does not
  check its value.
- `src/lib.rs` only declares the modules and is not modelled.
- The derived `Debug`, `Clone`, `Hash`, `PartialOrd` and `Ord` impls are not
  modelled. Equality is Dafny's structural equality.
