/**
 * The auction the driver sends to a solver (src/auction.rs): orders, token
 * metadata and the liquidity a solver may route through, with the serde
 * rules that fix their wire form.
 */
module AuctionSchema {
  import opened Wrappers
  import opened Primitives
  import opened Json
  import OrderUidCodec
  import DecimalText

  type OrderUid = OrderUidCodec.OrderUid

  // ---------------------------------------------------------------------
  // Closed name tables of the unit enums
  // ---------------------------------------------------------------------

  /** Where the buy amount is paid to (snake_case names). */
  datatype BuyTokenDestination = Erc20 | Internal

  function BuyTokenDestinationName(d: BuyTokenDestination): string
  {
    match d
    case Erc20 => "erc20"
    case Internal => "internal"
  }

  function BuyTokenDestinationFromName(s: string): Option<BuyTokenDestination>
  {
    if s == "erc20" then Some(BuyTokenDestination.Erc20)
    else if s == "internal" then Some(BuyTokenDestination.Internal)
    else None
  }

  /** The name table is a bijection between the variants and their names. */
  lemma BuyTokenDestinationNames(d: BuyTokenDestination, s: string)
    ensures BuyTokenDestinationFromName(BuyTokenDestinationName(d)) == Some(d)
    ensures BuyTokenDestinationFromName(s) == Some(d) <==> s == BuyTokenDestinationName(d)
  {
  }

  /** Where the sell amount is drawn from (snake_case names). */
  datatype SellTokenSource = Erc20 | External | Internal

  function SellTokenSourceName(s: SellTokenSource): string
  {
    match s
    case Erc20 => "erc20"
    case External => "external"
    case Internal => "internal"
  }

  function SellTokenSourceFromName(s: string): Option<SellTokenSource>
  {
    if s == "erc20" then Some(SellTokenSource.Erc20)
    else if s == "external" then Some(SellTokenSource.External)
    else if s == "internal" then Some(SellTokenSource.Internal)
    else None
  }

  lemma SellTokenSourceNames(src: SellTokenSource, s: string)
    ensures SellTokenSourceFromName(SellTokenSourceName(src)) == Some(src)
    ensures SellTokenSourceFromName(s) == Some(src) <==> s == SellTokenSourceName(src)
  {
  }

  /** The signature scheme, named in lowercase (no separators) in the auction. */
  datatype SigningScheme = Eip712 | EthSign | Eip1271 | PreSign

  function SigningSchemeName(s: SigningScheme): string
  {
    match s
    case Eip712 => "eip712"
    case EthSign => "ethsign"
    case Eip1271 => "eip1271"
    case PreSign => "presign"
  }

  function SigningSchemeFromName(s: string): Option<SigningScheme>
  {
    if s == "eip712" then Some(Eip712)
    else if s == "ethsign" then Some(EthSign)
    else if s == "eip1271" then Some(Eip1271)
    else if s == "presign" then Some(PreSign)
    else None
  }

  lemma SigningSchemeNames(scheme: SigningScheme, s: string)
    ensures SigningSchemeFromName(SigningSchemeName(scheme)) == Some(scheme)
    ensures SigningSchemeFromName(s) == Some(scheme) <==> s == SigningSchemeName(scheme)
  {
  }

  /** The order's direction. */
  datatype Kind = Sell | Buy

  function KindName(k: Kind): string
  {
    match k
    case Sell => "sell"
    case Buy => "buy"
  }

  function KindFromName(s: string): Option<Kind>
  {
    if s == "sell" then Some(Sell) else if s == "buy" then Some(Buy) else None
  }

  lemma KindNames(k: Kind, s: string)
    ensures KindFromName(KindName(k)) == Some(k)
    ensures KindFromName(s) == Some(k) <==> s == KindName(k)
  {
  }

  datatype Class = Market | Limit

  function ClassName(c: Class): string
  {
    match c
    case Market => "market"
    case Limit => "limit"
  }

  function ClassFromName(s: string): Option<Class>
  {
    if s == "market" then Some(Market) else if s == "limit" then Some(Limit) else None
  }

  lemma ClassNames(c: Class, s: string)
    ensures ClassFromName(ClassName(c)) == Some(c)
    ensures ClassFromName(s) == Some(c) <==> s == ClassName(c)
  {
  }

  datatype WeightedProductVersion = V0 | V3Plus

  function WeightedProductVersionName(v: WeightedProductVersion): string
  {
    match v
    case V0 => "v0"
    case V3Plus => "v3Plus"
  }

  function WeightedProductVersionFromName(s: string): Option<WeightedProductVersion>
  {
    if s == "v0" then Some(V0) else if s == "v3Plus" then Some(V3Plus) else None
  }

  lemma WeightedProductVersionNames(v: WeightedProductVersion, s: string)
    ensures WeightedProductVersionFromName(WeightedProductVersionName(v)) == Some(v)
    ensures WeightedProductVersionFromName(s) == Some(v) <==> s == WeightedProductVersionName(v)
  {
  }

  // ---------------------------------------------------------------------
  // Entities
  // ---------------------------------------------------------------------

  datatype Auction = Auction(
    id: Option<I64>,
    tokens: map<Address, Token>,
    orders: seq<Order>,
    liquidity: seq<Liquidity>,
    effectiveGasPrice: U256,
    deadline: DateTime,
    surplusCapturingJitOrderOwners: seq<Address>)

  datatype Order = Order(
    uid: OrderUid,
    sellToken: Address,
    buyToken: Address,
    sellAmount: U256,
    fullSellAmount: U256,
    buyAmount: U256,
    fullBuyAmount: U256,
    feePolicies: Option<seq<FeePolicy>>,
    validTo: U32,
    kind: Kind,
    receiver: Option<Address>,
    owner: Address,
    partiallyFillable: bool,
    preInteractions: seq<InteractionData>,
    postInteractions: seq<InteractionData>,
    sellTokenSource: SellTokenSource,
    buyTokenDestination: BuyTokenDestination,
    orderClass: Class,  // written under the wire name "class"
    appData: B256,
    signingScheme: SigningScheme,
    signature: seq<Byte>)

  datatype InteractionData = InteractionData(target: Address, value: U256, callData: seq<Byte>)

  /** Externally tagged: written as a one-key object naming the variant. */
  datatype FeePolicy =
    | Surplus(factor: F64, maxVolumeFactor: F64)
    | PriceImprovement(factor: F64, maxVolumeFactor: F64, quote: Quote)
    | Volume(factor: F64)

  datatype Quote = Quote(sellAmount: U256, buyAmount: U256, fee: U256)

  datatype Token = Token(
    decimals: Option<U8>,
    symbol: Option<string>,
    referencePrice: Option<U256>,
    availableBalance: U256,
    trusted: bool)

  /** Internally tagged by "kind". */
  datatype Liquidity =
    | ConstantProduct(constantProduct: ConstantProductPool)
    | WeightedProduct(weightedProduct: WeightedProductPool)
    | Stable(stable: StablePool)
    | ConcentratedLiquidity(concentratedLiquidity: ConcentratedLiquidityPool)
    | LimitOrder(limitOrder: ForeignLimitOrder)

  datatype ConstantProductPool = ConstantProductPool(
    id: string,
    address: Address,
    router: Address,
    gasEstimate: U256,
    tokens: map<Address, ConstantProductReserve>,
    fee: BigDecimal)

  datatype ConstantProductReserve = ConstantProductReserve(balance: U256)

  datatype WeightedProductPool = WeightedProductPool(
    id: string,
    address: Address,
    balancerPoolId: B256,
    gasEstimate: U256,
    tokens: map<Address, WeightedProductReserve>,
    fee: BigDecimal,
    version: WeightedProductVersion)

  datatype WeightedProductReserve = WeightedProductReserve(balance: U256, scalingFactor: BigDecimal, weight: BigDecimal)

  datatype StablePool = StablePool(
    id: string,
    address: Address,
    balancerPoolId: B256,
    gasEstimate: U256,
    tokens: map<Address, StableReserve>,
    amplificationParameter: BigDecimal,
    fee: BigDecimal)

  datatype StableReserve = StableReserve(balance: U256, scalingFactor: BigDecimal)

  datatype ConcentratedLiquidityPool = ConcentratedLiquidityPool(
    id: string,
    address: Address,
    router: Address,
    gasEstimate: U256,
    tokens: seq<Address>,
    sqrtPrice: U256,
    liquidity: U128,
    tick: I32,
    liquidityNet: map<I32, I128>,
    fee: BigDecimal)

  datatype ForeignLimitOrder = ForeignLimitOrder(
    id: string,
    address: Address,
    gasEstimate: U256,
    hash: B256,
    makerToken: Address,
    takerToken: Address,
    makerAmount: U256,
    takerAmount: U256,
    takerTokenFeeAmount: U256)

  // ---------------------------------------------------------------------
  // Unit enums on the wire
  // ---------------------------------------------------------------------

  function EncodeKind(k: Kind): Json { Str(KindName(k)) }
  function DecodeKind(j: Json): Decoded<Kind> { DecodeName(j, KindFromName) }

  function EncodeClass(c: Class): Json { Str(ClassName(c)) }
  function DecodeClass(j: Json): Decoded<Class> { DecodeName(j, ClassFromName) }

  function EncodeSigningScheme(s: SigningScheme): Json { Str(SigningSchemeName(s)) }
  function DecodeSigningScheme(j: Json): Decoded<SigningScheme> { DecodeName(j, SigningSchemeFromName) }

  function EncodeSellTokenSource(s: SellTokenSource): Json { Str(SellTokenSourceName(s)) }
  function DecodeSellTokenSource(j: Json): Decoded<SellTokenSource> { DecodeName(j, SellTokenSourceFromName) }

  function EncodeBuyTokenDestination(d: BuyTokenDestination): Json { Str(BuyTokenDestinationName(d)) }
  function DecodeBuyTokenDestination(j: Json): Decoded<BuyTokenDestination> { DecodeName(j, BuyTokenDestinationFromName) }

  function EncodeWeightedProductVersion(v: WeightedProductVersion): Json { Str(WeightedProductVersionName(v)) }
  function DecodeWeightedProductVersion(j: Json): Decoded<WeightedProductVersion> { DecodeName(j, WeightedProductVersionFromName) }

  /** Each unit enum reads back its own name, and only the names of its table. */
  lemma UnitEnumsRoundTrip(k: Kind, c: Class, s: SigningScheme, src: SellTokenSource, d: BuyTokenDestination, v: WeightedProductVersion)
    ensures DecodeKind(EncodeKind(k)) == Ok(k)
    ensures DecodeClass(EncodeClass(c)) == Ok(c)
    ensures DecodeSigningScheme(EncodeSigningScheme(s)) == Ok(s)
    ensures DecodeSellTokenSource(EncodeSellTokenSource(src)) == Ok(src)
    ensures DecodeBuyTokenDestination(EncodeBuyTokenDestination(d)) == Ok(d)
    ensures DecodeWeightedProductVersion(EncodeWeightedProductVersion(v)) == Ok(v)
  {
    KindNames(k, "");
    ClassNames(c, "");
    SigningSchemeNames(s, "");
    SellTokenSourceNames(src, "");
    BuyTokenDestinationNames(d, "");
    WeightedProductVersionNames(v, "");
  }

  // ---------------------------------------------------------------------
  // Small structs
  // ---------------------------------------------------------------------

  function EncodeInteractionData(i: InteractionData): Json
  {
    Obj(map["target" := EncodeAddress(i.target), "value" := EncodeU256(i.value), "callData" := EncodeBytes(i.callData)])
  }

  function DecodeInteractionData(j: Json): Decoded<InteractionData>
  {
    var m :- DecodeObject(j);
    var target :- Field(m, "target", DecodeAddress);
    var value :- Field(m, "value", DecodeU256);
    var callData :- Field(m, "callData", DecodeBytes);
    Ok(InteractionData(target, value, callData))
  }

  lemma InteractionDataRoundTrip(i: InteractionData)
    ensures DecodeInteractionData(EncodeInteractionData(i)) == Ok(i)
  {
    AddressRoundTrip(i.target);
    BytesRoundTrip(i.callData);
  }

  function EncodeQuote(q: Quote): Json
  {
    Obj(map["sellAmount" := EncodeU256(q.sellAmount), "buyAmount" := EncodeU256(q.buyAmount), "fee" := EncodeU256(q.fee)])
  }

  function DecodeQuote(j: Json): Decoded<Quote>
  {
    var m :- DecodeObject(j);
    var sellAmount :- Field(m, "sellAmount", DecodeU256);
    var buyAmount :- Field(m, "buyAmount", DecodeU256);
    var fee :- Field(m, "fee", DecodeU256);
    Ok(Quote(sellAmount, buyAmount, fee))
  }

  lemma QuoteRoundTrip(q: Quote)
    ensures DecodeQuote(EncodeQuote(q)) == Ok(q)
  {
  }

  function EncodeToken(t: Token): Json
  {
    Obj(map[
      "decimals" := EncodeOption(t.decimals, EncodeU8),
      "symbol" := EncodeOption(t.symbol, EncodeString),
      "referencePrice" := EncodeOption(t.referencePrice, EncodeU256),
      "availableBalance" := EncodeU256(t.availableBalance),
      "trusted" := Bool(t.trusted)])
  }

  function DecodeToken(j: Json): Decoded<Token>
  {
    var m :- DecodeObject(j);
    var decimals :- OptionField(m, "decimals", DecodeU8);
    var symbol :- OptionField(m, "symbol", DecodeString);
    var referencePrice :- OptionField(m, "referencePrice", DecodeU256);
    var availableBalance :- Field(m, "availableBalance", DecodeU256);
    var trusted :- Field(m, "trusted", DecodeBool);
    Ok(Token(decimals, symbol, referencePrice, availableBalance, trusted))
  }

  lemma TokenRoundTrip(t: Token)
    ensures DecodeToken(EncodeToken(t)) == Ok(t)
  {
  }

  // ---------------------------------------------------------------------
  // FeePolicy: externally tagged
  // ---------------------------------------------------------------------

  function FeePolicyName(p: FeePolicy): string
  {
    match p
    case Surplus(_, _) => "surplus"
    case PriceImprovement(_, _, _) => "priceImprovement"
    case Volume(_) => "volume"
  }

  /** The fields of the variant, under their camelCase names. */
  function FeePolicyBody(p: FeePolicy): map<string, Json>
  {
    match p
    case Surplus(f, mv) => map["factor" := EncodeF64(f), "maxVolumeFactor" := EncodeF64(mv)]
    case PriceImprovement(f, mv, q) => map["factor" := EncodeF64(f), "maxVolumeFactor" := EncodeF64(mv), "quote" := EncodeQuote(q)]
    case Volume(f) => map["factor" := EncodeF64(f)]
  }

  function EncodeFeePolicy(p: FeePolicy): Json
  {
    Obj(map[FeePolicyName(p) := Obj(FeePolicyBody(p))])
  }

  /** Reads the payload of the variant named `name`. */
  function DecodeFeePolicyVariant(name: string, j: Json): Decoded<FeePolicy>
  {
    if name == "surplus" then
      var m :- DecodeObject(j);
      var factor :- Field(m, "factor", DecodeF64);
      var maxVolumeFactor :- Field(m, "maxVolumeFactor", DecodeF64);
      Ok(Surplus(factor, maxVolumeFactor))
    else if name == "priceImprovement" then
      var m :- DecodeObject(j);
      var factor :- Field(m, "factor", DecodeF64);
      var maxVolumeFactor :- Field(m, "maxVolumeFactor", DecodeF64);
      var quote :- Field(m, "quote", DecodeQuote);
      Ok(PriceImprovement(factor, maxVolumeFactor, quote))
    else if name == "volume" then
      var m :- DecodeObject(j);
      var factor :- Field(m, "factor", DecodeF64);
      Ok(Volume(factor))
    else Err(UnknownVariant(name))
  }

  predicate IsFeePolicyName(s: string)
  {
    s == "surplus" || s == "priceImprovement" || s == "volume"
  }

  /**
   * An object with exactly one key, the variant's name, holding its fields. A
   * bare string names a unit variant, which FeePolicy does not have.
   */
  function DecodeFeePolicy(j: Json): Decoded<FeePolicy>
  {
    match j
    case Obj(m) =>
      if |m| != 1 then Err(InvalidType("map with a single key"))
      else
        OneKey(m);
        var name :| name in m;
        DecodeFeePolicyVariant(name, m[name])
    case Str(s) => if IsFeePolicyName(s) then Err(InvalidType("struct variant")) else Err(UnknownVariant(s))
    case _ => Err(InvalidType("enum"))
  }

  lemma OneKey<V>(m: map<string, V>)
    requires |m| == 1
    ensures forall a, b | a in m && b in m :: a == b
  {
    forall a, b | a in m && b in m ensures a == b {
      if a != b {
        assert {a, b} <= m.Keys;
        assert |{a, b}| == 2;
        SubsetCardinality({a, b}, m.Keys);
      }
    }
  }

  lemma SubsetCardinality<T>(a: set<T>, b: set<T>)
    requires a <= b
    ensures |a| <= |b|
  {
    assert b == a + (b - a);
  }

  /** A single-key object is read through the variant its key names. */
  lemma FeePolicySingleKey(name: string, v: Json)
    ensures DecodeFeePolicy(Obj(map[name := v])) == DecodeFeePolicyVariant(name, v)
  {
    assert map[name := v].Keys == {name};
  }

  lemma FeePolicyVariantRoundTrip(p: FeePolicy)
    ensures DecodeFeePolicyVariant(FeePolicyName(p), Obj(FeePolicyBody(p))) == Ok(p)
  {
    if p.PriceImprovement? {
      QuoteRoundTrip(p.quote);
    }
  }

  lemma FeePolicyRoundTrip(p: FeePolicy)
    ensures DecodeFeePolicy(EncodeFeePolicy(p)) == Ok(p)
  {
    FeePolicySingleKey(FeePolicyName(p), Obj(FeePolicyBody(p)));
    FeePolicyVariantRoundTrip(p);
  }

  /** The one key is the variant's camelCase name; there is never a "kind" field. */
  lemma FeePolicyShape(p: FeePolicy)
    ensures EncodeFeePolicy(p).Obj? && EncodeFeePolicy(p).fields.Keys == {FeePolicyName(p)}
    ensures FeePolicyName(p) in {"surplus", "priceImprovement", "volume"}
    ensures "kind" !in EncodeFeePolicy(p).fields
  {
  }

  // ---------------------------------------------------------------------
  // Order
  // ---------------------------------------------------------------------

  /** The object an order is written as, one entry per field under its wire name. */
  function OrderObject(uid: Json, sellToken: Json, buyToken: Json, sellAmount: Json, fullSellAmount: Json, buyAmount: Json, fullBuyAmount: Json, feePolicies: Json, validTo: Json, kind: Json, receiver: Json, owner: Json, partiallyFillable: Json, preInteractions: Json, postInteractions: Json, sellTokenSource: Json, buyTokenDestination: Json, orderClass: Json, appData: Json, signingScheme: Json, signature: Json): map<string, Json>
  {
    map[
      "uid" := uid,
      "sellToken" := sellToken,
      "buyToken" := buyToken,
      "sellAmount" := sellAmount,
      "fullSellAmount" := fullSellAmount,
      "buyAmount" := buyAmount,
      "fullBuyAmount" := fullBuyAmount,
      "feePolicies" := feePolicies,
      "validTo" := validTo,
      "kind" := kind,
      "receiver" := receiver,
      "owner" := owner,
      "partiallyFillable" := partiallyFillable,
      "preInteractions" := preInteractions,
      "postInteractions" := postInteractions,
      "sellTokenSource" := sellTokenSource,
      "buyTokenDestination" := buyTokenDestination,
      "class" := orderClass,
      "appData" := appData,
      "signingScheme" := signingScheme,
      "signature" := signature]
  }

  /** The entries of the order object read back, a few keys per lemma to keep each proof small. */
  lemma OrderObjectKeysA(uid: Json, sellToken: Json, buyToken: Json, sellAmount: Json, fullSellAmount: Json, buyAmount: Json, fullBuyAmount: Json, feePolicies: Json, validTo: Json, kind: Json, receiver: Json, owner: Json, partiallyFillable: Json, preInteractions: Json, postInteractions: Json, sellTokenSource: Json, buyTokenDestination: Json, orderClass: Json, appData: Json, signingScheme: Json, signature: Json)
    ensures var m := OrderObject(uid, sellToken, buyToken, sellAmount, fullSellAmount, buyAmount, fullBuyAmount, feePolicies, validTo, kind, receiver, owner, partiallyFillable, preInteractions, postInteractions, sellTokenSource, buyTokenDestination, orderClass, appData, signingScheme, signature);
      "uid" in m && m["uid"] == uid &&
      "sellToken" in m && m["sellToken"] == sellToken
  {
  }

  lemma OrderObjectKeysB(uid: Json, sellToken: Json, buyToken: Json, sellAmount: Json, fullSellAmount: Json, buyAmount: Json, fullBuyAmount: Json, feePolicies: Json, validTo: Json, kind: Json, receiver: Json, owner: Json, partiallyFillable: Json, preInteractions: Json, postInteractions: Json, sellTokenSource: Json, buyTokenDestination: Json, orderClass: Json, appData: Json, signingScheme: Json, signature: Json)
    ensures var m := OrderObject(uid, sellToken, buyToken, sellAmount, fullSellAmount, buyAmount, fullBuyAmount, feePolicies, validTo, kind, receiver, owner, partiallyFillable, preInteractions, postInteractions, sellTokenSource, buyTokenDestination, orderClass, appData, signingScheme, signature);
      "buyToken" in m && m["buyToken"] == buyToken &&
      "sellAmount" in m && m["sellAmount"] == sellAmount
  {
  }

  lemma OrderObjectKeysC(uid: Json, sellToken: Json, buyToken: Json, sellAmount: Json, fullSellAmount: Json, buyAmount: Json, fullBuyAmount: Json, feePolicies: Json, validTo: Json, kind: Json, receiver: Json, owner: Json, partiallyFillable: Json, preInteractions: Json, postInteractions: Json, sellTokenSource: Json, buyTokenDestination: Json, orderClass: Json, appData: Json, signingScheme: Json, signature: Json)
    ensures var m := OrderObject(uid, sellToken, buyToken, sellAmount, fullSellAmount, buyAmount, fullBuyAmount, feePolicies, validTo, kind, receiver, owner, partiallyFillable, preInteractions, postInteractions, sellTokenSource, buyTokenDestination, orderClass, appData, signingScheme, signature);
      "fullSellAmount" in m && m["fullSellAmount"] == fullSellAmount &&
      "buyAmount" in m && m["buyAmount"] == buyAmount
  {
  }

  lemma OrderObjectKeysD(uid: Json, sellToken: Json, buyToken: Json, sellAmount: Json, fullSellAmount: Json, buyAmount: Json, fullBuyAmount: Json, feePolicies: Json, validTo: Json, kind: Json, receiver: Json, owner: Json, partiallyFillable: Json, preInteractions: Json, postInteractions: Json, sellTokenSource: Json, buyTokenDestination: Json, orderClass: Json, appData: Json, signingScheme: Json, signature: Json)
    ensures var m := OrderObject(uid, sellToken, buyToken, sellAmount, fullSellAmount, buyAmount, fullBuyAmount, feePolicies, validTo, kind, receiver, owner, partiallyFillable, preInteractions, postInteractions, sellTokenSource, buyTokenDestination, orderClass, appData, signingScheme, signature);
      "fullBuyAmount" in m && m["fullBuyAmount"] == fullBuyAmount &&
      "feePolicies" in m && m["feePolicies"] == feePolicies
  {
  }

  lemma OrderObjectKeysE(uid: Json, sellToken: Json, buyToken: Json, sellAmount: Json, fullSellAmount: Json, buyAmount: Json, fullBuyAmount: Json, feePolicies: Json, validTo: Json, kind: Json, receiver: Json, owner: Json, partiallyFillable: Json, preInteractions: Json, postInteractions: Json, sellTokenSource: Json, buyTokenDestination: Json, orderClass: Json, appData: Json, signingScheme: Json, signature: Json)
    ensures var m := OrderObject(uid, sellToken, buyToken, sellAmount, fullSellAmount, buyAmount, fullBuyAmount, feePolicies, validTo, kind, receiver, owner, partiallyFillable, preInteractions, postInteractions, sellTokenSource, buyTokenDestination, orderClass, appData, signingScheme, signature);
      "validTo" in m && m["validTo"] == validTo &&
      "kind" in m && m["kind"] == kind
  {
  }

  lemma OrderObjectKeysF(uid: Json, sellToken: Json, buyToken: Json, sellAmount: Json, fullSellAmount: Json, buyAmount: Json, fullBuyAmount: Json, feePolicies: Json, validTo: Json, kind: Json, receiver: Json, owner: Json, partiallyFillable: Json, preInteractions: Json, postInteractions: Json, sellTokenSource: Json, buyTokenDestination: Json, orderClass: Json, appData: Json, signingScheme: Json, signature: Json)
    ensures var m := OrderObject(uid, sellToken, buyToken, sellAmount, fullSellAmount, buyAmount, fullBuyAmount, feePolicies, validTo, kind, receiver, owner, partiallyFillable, preInteractions, postInteractions, sellTokenSource, buyTokenDestination, orderClass, appData, signingScheme, signature);
      "receiver" in m && m["receiver"] == receiver &&
      "owner" in m && m["owner"] == owner
  {
  }

  lemma OrderObjectKeysG(uid: Json, sellToken: Json, buyToken: Json, sellAmount: Json, fullSellAmount: Json, buyAmount: Json, fullBuyAmount: Json, feePolicies: Json, validTo: Json, kind: Json, receiver: Json, owner: Json, partiallyFillable: Json, preInteractions: Json, postInteractions: Json, sellTokenSource: Json, buyTokenDestination: Json, orderClass: Json, appData: Json, signingScheme: Json, signature: Json)
    ensures var m := OrderObject(uid, sellToken, buyToken, sellAmount, fullSellAmount, buyAmount, fullBuyAmount, feePolicies, validTo, kind, receiver, owner, partiallyFillable, preInteractions, postInteractions, sellTokenSource, buyTokenDestination, orderClass, appData, signingScheme, signature);
      "partiallyFillable" in m && m["partiallyFillable"] == partiallyFillable &&
      "preInteractions" in m && m["preInteractions"] == preInteractions
  {
  }

  lemma OrderObjectKeysH(uid: Json, sellToken: Json, buyToken: Json, sellAmount: Json, fullSellAmount: Json, buyAmount: Json, fullBuyAmount: Json, feePolicies: Json, validTo: Json, kind: Json, receiver: Json, owner: Json, partiallyFillable: Json, preInteractions: Json, postInteractions: Json, sellTokenSource: Json, buyTokenDestination: Json, orderClass: Json, appData: Json, signingScheme: Json, signature: Json)
    ensures var m := OrderObject(uid, sellToken, buyToken, sellAmount, fullSellAmount, buyAmount, fullBuyAmount, feePolicies, validTo, kind, receiver, owner, partiallyFillable, preInteractions, postInteractions, sellTokenSource, buyTokenDestination, orderClass, appData, signingScheme, signature);
      "postInteractions" in m && m["postInteractions"] == postInteractions &&
      "sellTokenSource" in m && m["sellTokenSource"] == sellTokenSource
  {
  }

  lemma OrderObjectKeysI(uid: Json, sellToken: Json, buyToken: Json, sellAmount: Json, fullSellAmount: Json, buyAmount: Json, fullBuyAmount: Json, feePolicies: Json, validTo: Json, kind: Json, receiver: Json, owner: Json, partiallyFillable: Json, preInteractions: Json, postInteractions: Json, sellTokenSource: Json, buyTokenDestination: Json, orderClass: Json, appData: Json, signingScheme: Json, signature: Json)
    ensures var m := OrderObject(uid, sellToken, buyToken, sellAmount, fullSellAmount, buyAmount, fullBuyAmount, feePolicies, validTo, kind, receiver, owner, partiallyFillable, preInteractions, postInteractions, sellTokenSource, buyTokenDestination, orderClass, appData, signingScheme, signature);
      "buyTokenDestination" in m && m["buyTokenDestination"] == buyTokenDestination &&
      "class" in m && m["class"] == orderClass
  {
  }

  lemma OrderObjectKeysJ(uid: Json, sellToken: Json, buyToken: Json, sellAmount: Json, fullSellAmount: Json, buyAmount: Json, fullBuyAmount: Json, feePolicies: Json, validTo: Json, kind: Json, receiver: Json, owner: Json, partiallyFillable: Json, preInteractions: Json, postInteractions: Json, sellTokenSource: Json, buyTokenDestination: Json, orderClass: Json, appData: Json, signingScheme: Json, signature: Json)
    ensures var m := OrderObject(uid, sellToken, buyToken, sellAmount, fullSellAmount, buyAmount, fullBuyAmount, feePolicies, validTo, kind, receiver, owner, partiallyFillable, preInteractions, postInteractions, sellTokenSource, buyTokenDestination, orderClass, appData, signingScheme, signature);
      "appData" in m && m["appData"] == appData &&
      "signingScheme" in m && m["signingScheme"] == signingScheme
  {
  }

  lemma OrderObjectKeysK(uid: Json, sellToken: Json, buyToken: Json, sellAmount: Json, fullSellAmount: Json, buyAmount: Json, fullBuyAmount: Json, feePolicies: Json, validTo: Json, kind: Json, receiver: Json, owner: Json, partiallyFillable: Json, preInteractions: Json, postInteractions: Json, sellTokenSource: Json, buyTokenDestination: Json, orderClass: Json, appData: Json, signingScheme: Json, signature: Json)
    ensures var m := OrderObject(uid, sellToken, buyToken, sellAmount, fullSellAmount, buyAmount, fullBuyAmount, feePolicies, validTo, kind, receiver, owner, partiallyFillable, preInteractions, postInteractions, sellTokenSource, buyTokenDestination, orderClass, appData, signingScheme, signature);
      "signature" in m && m["signature"] == signature
  {
  }

  lemma OrderObjectKeys(uid: Json, sellToken: Json, buyToken: Json, sellAmount: Json, fullSellAmount: Json, buyAmount: Json, fullBuyAmount: Json, feePolicies: Json, validTo: Json, kind: Json, receiver: Json, owner: Json, partiallyFillable: Json, preInteractions: Json, postInteractions: Json, sellTokenSource: Json, buyTokenDestination: Json, orderClass: Json, appData: Json, signingScheme: Json, signature: Json)
    ensures var m := OrderObject(uid, sellToken, buyToken, sellAmount, fullSellAmount, buyAmount, fullBuyAmount, feePolicies, validTo, kind, receiver, owner, partiallyFillable, preInteractions, postInteractions, sellTokenSource, buyTokenDestination, orderClass, appData, signingScheme, signature);
      "uid" in m && m["uid"] == uid &&
      "sellToken" in m && m["sellToken"] == sellToken &&
      "buyToken" in m && m["buyToken"] == buyToken &&
      "sellAmount" in m && m["sellAmount"] == sellAmount &&
      "fullSellAmount" in m && m["fullSellAmount"] == fullSellAmount &&
      "buyAmount" in m && m["buyAmount"] == buyAmount &&
      "fullBuyAmount" in m && m["fullBuyAmount"] == fullBuyAmount &&
      "feePolicies" in m && m["feePolicies"] == feePolicies &&
      "validTo" in m && m["validTo"] == validTo &&
      "kind" in m && m["kind"] == kind &&
      "receiver" in m && m["receiver"] == receiver &&
      "owner" in m && m["owner"] == owner &&
      "partiallyFillable" in m && m["partiallyFillable"] == partiallyFillable &&
      "preInteractions" in m && m["preInteractions"] == preInteractions &&
      "postInteractions" in m && m["postInteractions"] == postInteractions &&
      "sellTokenSource" in m && m["sellTokenSource"] == sellTokenSource &&
      "buyTokenDestination" in m && m["buyTokenDestination"] == buyTokenDestination &&
      "class" in m && m["class"] == orderClass &&
      "appData" in m && m["appData"] == appData &&
      "signingScheme" in m && m["signingScheme"] == signingScheme &&
      "signature" in m && m["signature"] == signature
  {
    OrderObjectKeysA(uid, sellToken, buyToken, sellAmount, fullSellAmount, buyAmount, fullBuyAmount, feePolicies, validTo, kind, receiver, owner, partiallyFillable, preInteractions, postInteractions, sellTokenSource, buyTokenDestination, orderClass, appData, signingScheme, signature);
    OrderObjectKeysB(uid, sellToken, buyToken, sellAmount, fullSellAmount, buyAmount, fullBuyAmount, feePolicies, validTo, kind, receiver, owner, partiallyFillable, preInteractions, postInteractions, sellTokenSource, buyTokenDestination, orderClass, appData, signingScheme, signature);
    OrderObjectKeysC(uid, sellToken, buyToken, sellAmount, fullSellAmount, buyAmount, fullBuyAmount, feePolicies, validTo, kind, receiver, owner, partiallyFillable, preInteractions, postInteractions, sellTokenSource, buyTokenDestination, orderClass, appData, signingScheme, signature);
    OrderObjectKeysD(uid, sellToken, buyToken, sellAmount, fullSellAmount, buyAmount, fullBuyAmount, feePolicies, validTo, kind, receiver, owner, partiallyFillable, preInteractions, postInteractions, sellTokenSource, buyTokenDestination, orderClass, appData, signingScheme, signature);
    OrderObjectKeysE(uid, sellToken, buyToken, sellAmount, fullSellAmount, buyAmount, fullBuyAmount, feePolicies, validTo, kind, receiver, owner, partiallyFillable, preInteractions, postInteractions, sellTokenSource, buyTokenDestination, orderClass, appData, signingScheme, signature);
    OrderObjectKeysF(uid, sellToken, buyToken, sellAmount, fullSellAmount, buyAmount, fullBuyAmount, feePolicies, validTo, kind, receiver, owner, partiallyFillable, preInteractions, postInteractions, sellTokenSource, buyTokenDestination, orderClass, appData, signingScheme, signature);
    OrderObjectKeysG(uid, sellToken, buyToken, sellAmount, fullSellAmount, buyAmount, fullBuyAmount, feePolicies, validTo, kind, receiver, owner, partiallyFillable, preInteractions, postInteractions, sellTokenSource, buyTokenDestination, orderClass, appData, signingScheme, signature);
    OrderObjectKeysH(uid, sellToken, buyToken, sellAmount, fullSellAmount, buyAmount, fullBuyAmount, feePolicies, validTo, kind, receiver, owner, partiallyFillable, preInteractions, postInteractions, sellTokenSource, buyTokenDestination, orderClass, appData, signingScheme, signature);
    OrderObjectKeysI(uid, sellToken, buyToken, sellAmount, fullSellAmount, buyAmount, fullBuyAmount, feePolicies, validTo, kind, receiver, owner, partiallyFillable, preInteractions, postInteractions, sellTokenSource, buyTokenDestination, orderClass, appData, signingScheme, signature);
    OrderObjectKeysJ(uid, sellToken, buyToken, sellAmount, fullSellAmount, buyAmount, fullBuyAmount, feePolicies, validTo, kind, receiver, owner, partiallyFillable, preInteractions, postInteractions, sellTokenSource, buyTokenDestination, orderClass, appData, signingScheme, signature);
    OrderObjectKeysK(uid, sellToken, buyToken, sellAmount, fullSellAmount, buyAmount, fullBuyAmount, feePolicies, validTo, kind, receiver, owner, partiallyFillable, preInteractions, postInteractions, sellTokenSource, buyTokenDestination, orderClass, appData, signingScheme, signature);
  }





  function EncodeOrder(o: Order): Json
  {
    Obj(OrderObject(OrderUidCodec.EncodeOrderUid(o.uid), EncodeAddress(o.sellToken), EncodeAddress(o.buyToken), EncodeU256(o.sellAmount), EncodeU256(o.fullSellAmount), EncodeU256(o.buyAmount), EncodeU256(o.fullBuyAmount), EncodeOption(o.feePolicies, EncodeFeePolicies), Num(o.validTo), EncodeKind(o.kind), EncodeOption(o.receiver, EncodeAddress), EncodeAddress(o.owner), Bool(o.partiallyFillable), EncodeInteractions(o.preInteractions), EncodeInteractions(o.postInteractions), EncodeSellTokenSource(o.sellTokenSource), EncodeBuyTokenDestination(o.buyTokenDestination), EncodeClass(o.orderClass), EncodeB256(o.appData), EncodeSigningScheme(o.signingScheme), EncodeBytes(o.signature)))
  }

  function EncodeFeePolicies(ps: seq<FeePolicy>): Json
  {
    EncodeSeq(ps, EncodeFeePolicy)
  }

  function DecodeFeePolicies(j: Json): Decoded<seq<FeePolicy>>
  {
    DecodeSeq(j, DecodeFeePolicy)
  }

  lemma FeePoliciesRoundTrip(ps: seq<FeePolicy>)
    ensures DecodeFeePolicies(EncodeFeePolicies(ps)) == Ok(ps)
  {
    forall p ensures DecodeFeePolicy(EncodeFeePolicy(p)) == Ok(p) { FeePolicyRoundTrip(p); }
    SeqRoundTrip(ps, EncodeFeePolicy, DecodeFeePolicy);
  }

  function EncodeInteractions(xs: seq<InteractionData>): Json
  {
    EncodeSeq(xs, EncodeInteractionData)
  }

  function DecodeInteractions(j: Json): Decoded<seq<InteractionData>>
  {
    DecodeSeq(j, DecodeInteractionData)
  }

  lemma InteractionsRoundTrip(xs: seq<InteractionData>)
    ensures DecodeInteractions(EncodeInteractions(xs)) == Ok(xs)
  {
    forall i ensures DecodeInteractionData(EncodeInteractionData(i)) == Ok(i) { InteractionDataRoundTrip(i); }
    SeqRoundTrip(xs, EncodeInteractionData, DecodeInteractionData);
  }

  function DecodeOrder(j: Json): Decoded<Order>
  {
    var m :- DecodeObject(j);
    var uid :- Field(m, "uid", OrderUidCodec.DecodeOrderUid);
    var sellToken :- Field(m, "sellToken", DecodeAddress);
    var buyToken :- Field(m, "buyToken", DecodeAddress);
    var sellAmount :- Field(m, "sellAmount", DecodeU256);
    var fullSellAmount :- Field(m, "fullSellAmount", DecodeU256);
    var buyAmount :- Field(m, "buyAmount", DecodeU256);
    var fullBuyAmount :- Field(m, "fullBuyAmount", DecodeU256);
    var feePolicies :- OptionField(m, "feePolicies", DecodeFeePolicies);
    var validTo :- Field(m, "validTo", DecodeU32);
    var kind :- Field(m, "kind", DecodeKind);
    var receiver :- OptionField(m, "receiver", DecodeAddress);
    var owner :- Field(m, "owner", DecodeAddress);
    var partiallyFillable :- Field(m, "partiallyFillable", DecodeBool);
    var preInteractions :- Field(m, "preInteractions", DecodeInteractions);
    var postInteractions :- Field(m, "postInteractions", DecodeInteractions);
    var sellTokenSource :- Field(m, "sellTokenSource", DecodeSellTokenSource);
    var buyTokenDestination :- Field(m, "buyTokenDestination", DecodeBuyTokenDestination);
    var orderClass :- Field(m, "class", DecodeClass);
    var appData :- Field(m, "appData", DecodeB256);
    var signingScheme :- Field(m, "signingScheme", DecodeSigningScheme);
    var signature :- Field(m, "signature", DecodeBytes);
    Ok(Order(uid, sellToken, buyToken, sellAmount, fullSellAmount, buyAmount, fullBuyAmount,
             feePolicies, validTo, kind, receiver, owner, partiallyFillable, preInteractions,
             postInteractions, sellTokenSource, buyTokenDestination, orderClass, appData,
             signingScheme, signature))
  }

  // Lookups into the 21-key object of an encoded order, in three groups to keep each proof small.

  lemma OrderKeysHead(o: Order)
    ensures var m := EncodeOrder(o).fields;
      "uid" in m && m["uid"] == OrderUidCodec.EncodeOrderUid(o.uid) &&
      "sellToken" in m && m["sellToken"] == EncodeAddress(o.sellToken) &&
      "buyToken" in m && m["buyToken"] == EncodeAddress(o.buyToken) &&
      "sellAmount" in m && m["sellAmount"] == EncodeU256(o.sellAmount) &&
      "fullSellAmount" in m && m["fullSellAmount"] == EncodeU256(o.fullSellAmount) &&
      "buyAmount" in m && m["buyAmount"] == EncodeU256(o.buyAmount) &&
      "fullBuyAmount" in m && m["fullBuyAmount"] == EncodeU256(o.fullBuyAmount)
  {
    OrderObjectKeys(OrderUidCodec.EncodeOrderUid(o.uid), EncodeAddress(o.sellToken), EncodeAddress(o.buyToken), EncodeU256(o.sellAmount), EncodeU256(o.fullSellAmount), EncodeU256(o.buyAmount), EncodeU256(o.fullBuyAmount), EncodeOption(o.feePolicies, EncodeFeePolicies), Num(o.validTo), EncodeKind(o.kind), EncodeOption(o.receiver, EncodeAddress), EncodeAddress(o.owner), Bool(o.partiallyFillable), EncodeInteractions(o.preInteractions), EncodeInteractions(o.postInteractions), EncodeSellTokenSource(o.sellTokenSource), EncodeBuyTokenDestination(o.buyTokenDestination), EncodeClass(o.orderClass), EncodeB256(o.appData), EncodeSigningScheme(o.signingScheme), EncodeBytes(o.signature));
  }

  lemma OrderKeysMiddle(o: Order)
    ensures var m := EncodeOrder(o).fields;
      "feePolicies" in m && m["feePolicies"] == EncodeOption(o.feePolicies, EncodeFeePolicies) &&
      "validTo" in m && m["validTo"] == Num(o.validTo) &&
      "kind" in m && m["kind"] == EncodeKind(o.kind) &&
      "receiver" in m && m["receiver"] == EncodeOption(o.receiver, EncodeAddress) &&
      "owner" in m && m["owner"] == EncodeAddress(o.owner) &&
      "partiallyFillable" in m && m["partiallyFillable"] == Bool(o.partiallyFillable) &&
      "preInteractions" in m && m["preInteractions"] == EncodeInteractions(o.preInteractions)
  {
    OrderObjectKeys(OrderUidCodec.EncodeOrderUid(o.uid), EncodeAddress(o.sellToken), EncodeAddress(o.buyToken), EncodeU256(o.sellAmount), EncodeU256(o.fullSellAmount), EncodeU256(o.buyAmount), EncodeU256(o.fullBuyAmount), EncodeOption(o.feePolicies, EncodeFeePolicies), Num(o.validTo), EncodeKind(o.kind), EncodeOption(o.receiver, EncodeAddress), EncodeAddress(o.owner), Bool(o.partiallyFillable), EncodeInteractions(o.preInteractions), EncodeInteractions(o.postInteractions), EncodeSellTokenSource(o.sellTokenSource), EncodeBuyTokenDestination(o.buyTokenDestination), EncodeClass(o.orderClass), EncodeB256(o.appData), EncodeSigningScheme(o.signingScheme), EncodeBytes(o.signature));
  }

  lemma OrderKeysTail(o: Order)
    ensures var m := EncodeOrder(o).fields;
      "postInteractions" in m && m["postInteractions"] == EncodeInteractions(o.postInteractions) &&
      "sellTokenSource" in m && m["sellTokenSource"] == EncodeSellTokenSource(o.sellTokenSource) &&
      "buyTokenDestination" in m && m["buyTokenDestination"] == EncodeBuyTokenDestination(o.buyTokenDestination) &&
      "class" in m && m["class"] == EncodeClass(o.orderClass) &&
      "appData" in m && m["appData"] == EncodeB256(o.appData) &&
      "signingScheme" in m && m["signingScheme"] == EncodeSigningScheme(o.signingScheme) &&
      "signature" in m && m["signature"] == EncodeBytes(o.signature)
  {
    OrderObjectKeys(OrderUidCodec.EncodeOrderUid(o.uid), EncodeAddress(o.sellToken), EncodeAddress(o.buyToken), EncodeU256(o.sellAmount), EncodeU256(o.fullSellAmount), EncodeU256(o.buyAmount), EncodeU256(o.fullBuyAmount), EncodeOption(o.feePolicies, EncodeFeePolicies), Num(o.validTo), EncodeKind(o.kind), EncodeOption(o.receiver, EncodeAddress), EncodeAddress(o.owner), Bool(o.partiallyFillable), EncodeInteractions(o.preInteractions), EncodeInteractions(o.postInteractions), EncodeSellTokenSource(o.sellTokenSource), EncodeBuyTokenDestination(o.buyTokenDestination), EncodeClass(o.orderClass), EncodeB256(o.appData), EncodeSigningScheme(o.signingScheme), EncodeBytes(o.signature));
  }

  /** The uid and the two token keys of an encoded order read back as the fields they were written from. */
  lemma OrderHeadFields(o: Order)
    ensures var m := EncodeOrder(o).fields;
      Field(m, "uid", OrderUidCodec.DecodeOrderUid) == Ok(o.uid) &&
      Field(m, "sellToken", DecodeAddress) == Ok(o.sellToken) &&
      Field(m, "buyToken", DecodeAddress) == Ok(o.buyToken)
  {
    OrderKeysHead(o);
    OrderUidCodec.OrderUidRoundTrip(o.uid);
    AddressRoundTrip(o.sellToken);
    AddressRoundTrip(o.buyToken);
  }

  /** The four amounts read back unchanged. */
  lemma OrderAmountFields(o: Order)
    ensures var m := EncodeOrder(o).fields;
      Field(m, "sellAmount", DecodeU256) == Ok(o.sellAmount) &&
      Field(m, "fullSellAmount", DecodeU256) == Ok(o.fullSellAmount) &&
      Field(m, "buyAmount", DecodeU256) == Ok(o.buyAmount) &&
      Field(m, "fullBuyAmount", DecodeU256) == Ok(o.fullBuyAmount)
  {
    OrderKeysHead(o);
  }

  lemma OrderOptionalFields(o: Order)
    ensures var m := EncodeOrder(o).fields;
      OptionField(m, "feePolicies", DecodeFeePolicies) == Ok(o.feePolicies) &&
      OptionField(m, "receiver", DecodeAddress) == Ok(o.receiver)
  {
    OrderKeysMiddle(o);
    forall ps ensures DecodeFeePolicies(EncodeFeePolicies(ps)) == Ok(ps) { FeePoliciesRoundTrip(ps); }
    OptionRoundTrip(o.feePolicies, EncodeFeePolicies, DecodeFeePolicies);
    forall a ensures DecodeAddress(EncodeAddress(a)) == Ok(a) { AddressRoundTrip(a); }
    OptionRoundTrip(o.receiver, EncodeAddress, DecodeAddress);
  }

  lemma OrderMiddleFields(o: Order)
    ensures var m := EncodeOrder(o).fields;
      Field(m, "validTo", DecodeU32) == Ok(o.validTo) &&
      Field(m, "kind", DecodeKind) == Ok(o.kind) &&
      Field(m, "owner", DecodeAddress) == Ok(o.owner) &&
      Field(m, "partiallyFillable", DecodeBool) == Ok(o.partiallyFillable) &&
      Field(m, "preInteractions", DecodeInteractions) == Ok(o.preInteractions)
  {
    OrderKeysMiddle(o);
    AddressRoundTrip(o.owner);
    UnitEnumsRoundTrip(o.kind, o.orderClass, o.signingScheme, o.sellTokenSource, o.buyTokenDestination, V0);
    InteractionsRoundTrip(o.preInteractions);
  }

  lemma OrderTailFields(o: Order)
    ensures var m := EncodeOrder(o).fields;
      Field(m, "postInteractions", DecodeInteractions) == Ok(o.postInteractions) &&
      Field(m, "sellTokenSource", DecodeSellTokenSource) == Ok(o.sellTokenSource) &&
      Field(m, "buyTokenDestination", DecodeBuyTokenDestination) == Ok(o.buyTokenDestination) &&
      Field(m, "class", DecodeClass) == Ok(o.orderClass) &&
      Field(m, "appData", DecodeB256) == Ok(o.appData) &&
      Field(m, "signingScheme", DecodeSigningScheme) == Ok(o.signingScheme) &&
      Field(m, "signature", DecodeBytes) == Ok(o.signature)
  {
    OrderKeysTail(o);
    InteractionsRoundTrip(o.postInteractions);
    UnitEnumsRoundTrip(o.kind, o.orderClass, o.signingScheme, o.sellTokenSource, o.buyTokenDestination, V0);
    B256RoundTrip(o.appData);
    BytesRoundTrip(o.signature);
  }

  lemma OrderRoundTrip(o: Order)
    ensures DecodeOrder(EncodeOrder(o)) == Ok(o)
  {
    OrderHeadFields(o);
    OrderAmountFields(o);
    OrderOptionalFields(o);
    OrderMiddleFields(o);
    OrderTailFields(o);
  }

  // ---------------------------------------------------------------------
  // Reserves
  // ---------------------------------------------------------------------

  function EncodeConstantProductReserve(r: ConstantProductReserve): Json
  {
    Obj(map["balance" := EncodeU256(r.balance)])
  }

  function DecodeConstantProductReserve(j: Json): Decoded<ConstantProductReserve>
  {
    var m :- DecodeObject(j);
    var balance :- Field(m, "balance", DecodeU256);
    Ok(ConstantProductReserve(balance))
  }

  function EncodeWeightedProductReserve(r: WeightedProductReserve): Json
  {
    Obj(map["balance" := EncodeU256(r.balance), "scalingFactor" := EncodeDecimal(r.scalingFactor), "weight" := EncodeDecimal(r.weight)])
  }

  function DecodeWeightedProductReserve(j: Json): Decoded<WeightedProductReserve>
  {
    var m :- DecodeObject(j);
    var balance :- Field(m, "balance", DecodeU256);
    var scalingFactor :- Field(m, "scalingFactor", DecodeDecimal);
    var weight :- Field(m, "weight", DecodeDecimal);
    Ok(WeightedProductReserve(balance, scalingFactor, weight))
  }

  function EncodeStableReserve(r: StableReserve): Json
  {
    Obj(map["balance" := EncodeU256(r.balance), "scalingFactor" := EncodeDecimal(r.scalingFactor)])
  }

  function DecodeStableReserve(j: Json): Decoded<StableReserve>
  {
    var m :- DecodeObject(j);
    var balance :- Field(m, "balance", DecodeU256);
    var scalingFactor :- Field(m, "scalingFactor", DecodeDecimal);
    Ok(StableReserve(balance, scalingFactor))
  }

  // The reserve tables: HashMap<Address, _> objects keyed by token address.

  function EncodeConstantProductReserves(m: map<Address, ConstantProductReserve>): Json
  {
    EncodeAddressMap(m, EncodeConstantProductReserve)
  }

  function DecodeConstantProductReserves(j: Json): Decoded<map<Address, ConstantProductReserve>>
  {
    DecodeAddressMap(j, DecodeConstantProductReserve)
  }

  function EncodeWeightedProductReserves(m: map<Address, WeightedProductReserve>): Json
  {
    EncodeAddressMap(m, EncodeWeightedProductReserve)
  }

  function DecodeWeightedProductReserves(j: Json): Decoded<map<Address, WeightedProductReserve>>
  {
    DecodeAddressMap(j, DecodeWeightedProductReserve)
  }

  function EncodeStableReserves(m: map<Address, StableReserve>): Json
  {
    EncodeAddressMap(m, EncodeStableReserve)
  }

  function DecodeStableReserves(j: Json): Decoded<map<Address, StableReserve>>
  {
    DecodeAddressMap(j, DecodeStableReserve)
  }

  lemma ReserveRoundTrip(cp: ConstantProductReserve, wp: WeightedProductReserve, st: StableReserve)
    ensures DecodeConstantProductReserve(EncodeConstantProductReserve(cp)) == Ok(cp)
    ensures DecodeWeightedProductReserve(EncodeWeightedProductReserve(wp)) == Ok(wp)
    ensures DecodeStableReserve(EncodeStableReserve(st)) == Ok(st)
  {
  }

  /** Each reserve table reads back entry for entry. */
  lemma ConstantProductReservesRoundTrip(m: map<Address, ConstantProductReserve>)
    ensures DecodeConstantProductReserves(EncodeConstantProductReserves(m)) == Ok(m)
  {
    forall r ensures DecodeConstantProductReserve(EncodeConstantProductReserve(r)) == Ok(r) {
      ReserveRoundTrip(r, WeightedProductReserve(0, BigDecimal(0, 0), BigDecimal(0, 0)), StableReserve(0, BigDecimal(0, 0)));
    }
    AddressMapRoundTrip(m, EncodeConstantProductReserve, DecodeConstantProductReserve);
  }

  lemma WeightedProductReservesRoundTrip(m: map<Address, WeightedProductReserve>)
    ensures DecodeWeightedProductReserves(EncodeWeightedProductReserves(m)) == Ok(m)
  {
    forall r ensures DecodeWeightedProductReserve(EncodeWeightedProductReserve(r)) == Ok(r) {
      ReserveRoundTrip(ConstantProductReserve(0), r, StableReserve(0, BigDecimal(0, 0)));
    }
    AddressMapRoundTrip(m, EncodeWeightedProductReserve, DecodeWeightedProductReserve);
  }

  lemma StableReservesRoundTrip(m: map<Address, StableReserve>)
    ensures DecodeStableReserves(EncodeStableReserves(m)) == Ok(m)
  {
    forall r ensures DecodeStableReserve(EncodeStableReserve(r)) == Ok(r) {
      ReserveRoundTrip(ConstantProductReserve(0), WeightedProductReserve(0, BigDecimal(0, 0), BigDecimal(0, 0)), r);
    }
    AddressMapRoundTrip(m, EncodeStableReserve, DecodeStableReserve);
  }

  // ---------------------------------------------------------------------
  // liquidityNet: HashMap<i32, i128>, both sides as decimal strings
  // ---------------------------------------------------------------------

  /** The tick a key of liquidityNet denotes, read by i32's FromStr. */
  function TickOfKey(k: string): Option<I32>
  {
    match DecimalText.ParseInt(k, -0x8000_0000, 0x7fff_ffff)
    case Some(i) =>
      DecimalText.ParseIntInRange(k, -0x8000_0000, 0x7fff_ffff);
      Some(i)
    case None => None
  }

  function TickText(t: I32): string
  {
    DecimalText.IntText(t)
  }

  lemma TickKeyRoundTrip()
    ensures forall t: I32 :: TickOfKey(TickText(t)) == Some(t)
  {
    forall t: I32 ensures TickOfKey(TickText(t)) == Some(t) {
      DecimalText.IntTextRoundTrip(t, -0x8000_0000, 0x7fff_ffff);
    }
  }

  /** i32's FromStr also reads a leading '+' and leading zeros: "+7" and "07" both denote tick 7. */
  lemma TickKeyOtherSpellings(t: I32)
    requires t >= 0
    ensures TickOfKey("+" + TickText(t)) == Some(t)
    ensures TickOfKey("0" + TickText(t)) == Some(t)
  {
    var s := DecimalText.NatText(t);
    DecimalText.NatTextValue(t);
    DecimalText.DigitsValueLeadingZero(s);
    assert ("+" + s)[1..] == s;
  }

  /** Text of a number outside the i32 range, with or without a minus sign, is no tick. */
  lemma TickKeyOutOfRange(n: nat)
    ensures n > 0x7fff_ffff ==> TickOfKey(DecimalText.NatText(n)) == None
    ensures n > 0x8000_0000 ==> TickOfKey("-" + DecimalText.NatText(n)) == None
  {
    var s := DecimalText.NatText(n);
    DecimalText.NatTextValue(n);
    DecimalText.NatTextDigits(n);
    assert DecimalText.IsDigit(s[0]);
    assert ("-" + s)[1..] == s;
  }

  function EncodeLiquidityNet(net: map<I32, I128>): Json
  {
    TickKeyRoundTrip();
    InjectiveFromInverse(TickText, TickOfKey);
    EncodeKeyedMap(net, TickText, EncodeI128Text)
  }

  /**
   * Every key must parse as an i32 and every value as an i128. FromStr also
   * accepts "+7" and "007", so two keys may name the same tick; such an
   * object is refused (see README).
   */
  function DecodeLiquidityNet(j: Json): Decoded<map<I32, I128>>
  {
    DecodeKeyedMap(j, TickOfKey, DecodeI128Text, InvalidInteger)
  }

  /** liquidityNet reads back tick for tick. */
  lemma LiquidityNetRoundTrip(net: map<I32, I128>)
    ensures DecodeLiquidityNet(EncodeLiquidityNet(net)) == Ok(net)
  {
    TickKeyRoundTrip();
    forall v: I128 ensures DecodeI128Text(EncodeI128Text(v)) == Ok(v) {
      TextIntegersRoundTrip(0, 0, v);
    }
    KeyedMapRoundTrip(net, TickText, TickOfKey, EncodeI128Text, DecodeI128Text, InvalidInteger);
  }

  /** Two spellings of one tick ("7" and "+7") in one object are refused. */
  lemma LiquidityNetRefusesAliasedTicks(o: map<string, Json>, k1: string, k2: string)
    requires k1 in o && k2 in o && k1 != k2 && TickOfKey(k1) == TickOfKey(k2)
    ensures DecodeLiquidityNet(Obj(o)).Err?
  {
    KeyedMapRefusesAliases(o, TickOfKey, DecodeI128Text, InvalidInteger, k1, k2);
  }

  // ---------------------------------------------------------------------
  // Pools
  // ---------------------------------------------------------------------

  /** The object a constant-product pool is written as, one entry per field under its wire name. */
  function ConstantProductPoolObject(id: Json, address: Json, router: Json, gasEstimate: Json, tokens: Json, fee: Json): map<string, Json>
  {
    map[
      "id" := id,
      "address" := address,
      "router" := router,
      "gasEstimate" := gasEstimate,
      "tokens" := tokens,
      "fee" := fee]
  }

  lemma ConstantProductPoolObjectKeysA(id: Json, address: Json, router: Json, gasEstimate: Json, tokens: Json, fee: Json)
    ensures var m := ConstantProductPoolObject(id, address, router, gasEstimate, tokens, fee);
      "id" in m && m["id"] == id &&
      "address" in m && m["address"] == address &&
      "router" in m && m["router"] == router
  {
  }

  lemma ConstantProductPoolObjectKeysB(id: Json, address: Json, router: Json, gasEstimate: Json, tokens: Json, fee: Json)
    ensures var m := ConstantProductPoolObject(id, address, router, gasEstimate, tokens, fee);
      "gasEstimate" in m && m["gasEstimate"] == gasEstimate &&
      "tokens" in m && m["tokens"] == tokens &&
      "fee" in m && m["fee"] == fee
  {
  }

  lemma ConstantProductPoolObjectKeysC(id: Json, address: Json, router: Json, gasEstimate: Json, tokens: Json, fee: Json)
    ensures var m := ConstantProductPoolObject(id, address, router, gasEstimate, tokens, fee);
      "kind" !in m
  {
  }

  lemma ConstantProductPoolObjectKeys(id: Json, address: Json, router: Json, gasEstimate: Json, tokens: Json, fee: Json)
    ensures var m := ConstantProductPoolObject(id, address, router, gasEstimate, tokens, fee);
      "id" in m && m["id"] == id &&
      "address" in m && m["address"] == address &&
      "router" in m && m["router"] == router &&
      "gasEstimate" in m && m["gasEstimate"] == gasEstimate &&
      "tokens" in m && m["tokens"] == tokens &&
      "fee" in m && m["fee"] == fee &&
      "kind" !in m
  {
    ConstantProductPoolObjectKeysA(id, address, router, gasEstimate, tokens, fee);
    ConstantProductPoolObjectKeysB(id, address, router, gasEstimate, tokens, fee);
    ConstantProductPoolObjectKeysC(id, address, router, gasEstimate, tokens, fee);
  }

  function EncodeConstantProductPool(p: ConstantProductPool): Json
  {
    Obj(ConstantProductPoolObject(Str(p.id), EncodeAddress(p.address), EncodeAddress(p.router), EncodeU256(p.gasEstimate), EncodeConstantProductReserves(p.tokens), EncodeDecimal(p.fee)))
  }

  function DecodeConstantProductPool(j: Json): Decoded<ConstantProductPool>
  {
    var m :- DecodeObject(j);
    var id :- Field(m, "id", DecodeString);
    var address :- Field(m, "address", DecodeAddress);
    var router :- Field(m, "router", DecodeAddress);
    var gasEstimate :- Field(m, "gasEstimate", DecodeU256);
    var tokens :- Field(m, "tokens", DecodeConstantProductReserves);
    var fee :- Field(m, "fee", DecodeDecimal);
    Ok(ConstantProductPool(id, address, router, gasEstimate, tokens, fee))
  }

  lemma ConstantProductPoolKeys(p: ConstantProductPool)
    ensures var m := EncodeConstantProductPool(p).fields;
      "id" in m && m["id"] == Str(p.id) &&
      "address" in m && m["address"] == EncodeAddress(p.address) &&
      "router" in m && m["router"] == EncodeAddress(p.router) &&
      "gasEstimate" in m && m["gasEstimate"] == EncodeU256(p.gasEstimate) &&
      "tokens" in m && m["tokens"] == EncodeConstantProductReserves(p.tokens) &&
      "fee" in m && m["fee"] == EncodeDecimal(p.fee)
  {
    ConstantProductPoolObjectKeys(Str(p.id), EncodeAddress(p.address), EncodeAddress(p.router), EncodeU256(p.gasEstimate), EncodeConstantProductReserves(p.tokens), EncodeDecimal(p.fee));
  }

  /** The struct never uses the key "kind", so a liquidity tag cannot clash with it. */
  lemma ConstantProductPoolUntagged(p: ConstantProductPool)
    ensures "kind" !in EncodeConstantProductPool(p).fields
  {
    ConstantProductPoolObjectKeys(Str(p.id), EncodeAddress(p.address), EncodeAddress(p.router), EncodeU256(p.gasEstimate), EncodeConstantProductReserves(p.tokens), EncodeDecimal(p.fee));
  }

  /** Each entry of an encoded ConstantProductPool reads back as the field it was written from. */
  lemma ConstantProductPoolFields(p: ConstantProductPool)
    ensures var m := EncodeConstantProductPool(p).fields;
      Field(m, "id", DecodeString) == Ok(p.id) &&
      Field(m, "address", DecodeAddress) == Ok(p.address) &&
      Field(m, "router", DecodeAddress) == Ok(p.router) &&
      Field(m, "gasEstimate", DecodeU256) == Ok(p.gasEstimate) &&
      Field(m, "tokens", DecodeConstantProductReserves) == Ok(p.tokens) &&
      Field(m, "fee", DecodeDecimal) == Ok(p.fee)
  {
    ConstantProductPoolKeys(p);
    AddressRoundTrip(p.address);
    AddressRoundTrip(p.router);
    ConstantProductReservesRoundTrip(p.tokens);
  }

  /** Any object whose entries read as the fields of `p` decodes to `p`. */
  lemma ConstantProductPoolFromFields(m: map<string, Json>, p: ConstantProductPool)
    requires Field(m, "id", DecodeString) == Ok(p.id)
    requires Field(m, "address", DecodeAddress) == Ok(p.address)
    requires Field(m, "router", DecodeAddress) == Ok(p.router)
    requires Field(m, "gasEstimate", DecodeU256) == Ok(p.gasEstimate)
    requires Field(m, "tokens", DecodeConstantProductReserves) == Ok(p.tokens)
    requires Field(m, "fee", DecodeDecimal) == Ok(p.fee)
    ensures DecodeConstantProductPool(Obj(m)) == Ok(p)
  {
  }

  lemma ConstantProductPoolRoundTrip(p: ConstantProductPool)
    ensures DecodeConstantProductPool(EncodeConstantProductPool(p)) == Ok(p)
  {
    ConstantProductPoolFields(p);
    ConstantProductPoolFromFields(EncodeConstantProductPool(p).fields, p);
  }

  /** The object a weighted-product pool is written as, one entry per field under its wire name. */
  function WeightedProductPoolObject(id: Json, address: Json, balancerPoolId: Json, gasEstimate: Json, tokens: Json, fee: Json, version: Json): map<string, Json>
  {
    map[
      "id" := id,
      "address" := address,
      "balancerPoolId" := balancerPoolId,
      "gasEstimate" := gasEstimate,
      "tokens" := tokens,
      "fee" := fee,
      "version" := version]
  }

  lemma WeightedProductPoolObjectKeysA(id: Json, address: Json, balancerPoolId: Json, gasEstimate: Json, tokens: Json, fee: Json, version: Json)
    ensures var m := WeightedProductPoolObject(id, address, balancerPoolId, gasEstimate, tokens, fee, version);
      "id" in m && m["id"] == id &&
      "address" in m && m["address"] == address &&
      "balancerPoolId" in m && m["balancerPoolId"] == balancerPoolId
  {
  }

  lemma WeightedProductPoolObjectKeysB(id: Json, address: Json, balancerPoolId: Json, gasEstimate: Json, tokens: Json, fee: Json, version: Json)
    ensures var m := WeightedProductPoolObject(id, address, balancerPoolId, gasEstimate, tokens, fee, version);
      "gasEstimate" in m && m["gasEstimate"] == gasEstimate &&
      "tokens" in m && m["tokens"] == tokens &&
      "fee" in m && m["fee"] == fee
  {
  }

  lemma WeightedProductPoolObjectKeysC(id: Json, address: Json, balancerPoolId: Json, gasEstimate: Json, tokens: Json, fee: Json, version: Json)
    ensures var m := WeightedProductPoolObject(id, address, balancerPoolId, gasEstimate, tokens, fee, version);
      "version" in m && m["version"] == version
  {
  }

  lemma WeightedProductPoolObjectKeysD(id: Json, address: Json, balancerPoolId: Json, gasEstimate: Json, tokens: Json, fee: Json, version: Json)
    ensures var m := WeightedProductPoolObject(id, address, balancerPoolId, gasEstimate, tokens, fee, version);
      "kind" !in m
  {
  }

  lemma WeightedProductPoolObjectKeys(id: Json, address: Json, balancerPoolId: Json, gasEstimate: Json, tokens: Json, fee: Json, version: Json)
    ensures var m := WeightedProductPoolObject(id, address, balancerPoolId, gasEstimate, tokens, fee, version);
      "id" in m && m["id"] == id &&
      "address" in m && m["address"] == address &&
      "balancerPoolId" in m && m["balancerPoolId"] == balancerPoolId &&
      "gasEstimate" in m && m["gasEstimate"] == gasEstimate &&
      "tokens" in m && m["tokens"] == tokens &&
      "fee" in m && m["fee"] == fee &&
      "version" in m && m["version"] == version &&
      "kind" !in m
  {
    WeightedProductPoolObjectKeysA(id, address, balancerPoolId, gasEstimate, tokens, fee, version);
    WeightedProductPoolObjectKeysB(id, address, balancerPoolId, gasEstimate, tokens, fee, version);
    WeightedProductPoolObjectKeysC(id, address, balancerPoolId, gasEstimate, tokens, fee, version);
    WeightedProductPoolObjectKeysD(id, address, balancerPoolId, gasEstimate, tokens, fee, version);
  }

  function EncodeWeightedProductPool(p: WeightedProductPool): Json
  {
    Obj(WeightedProductPoolObject(Str(p.id), EncodeAddress(p.address), EncodeB256(p.balancerPoolId), EncodeU256(p.gasEstimate), EncodeWeightedProductReserves(p.tokens), EncodeDecimal(p.fee), EncodeWeightedProductVersion(p.version)))
  }

  function DecodeWeightedProductPool(j: Json): Decoded<WeightedProductPool>
  {
    var m :- DecodeObject(j);
    var id :- Field(m, "id", DecodeString);
    var address :- Field(m, "address", DecodeAddress);
    var balancerPoolId :- Field(m, "balancerPoolId", DecodeB256);
    var gasEstimate :- Field(m, "gasEstimate", DecodeU256);
    var tokens :- Field(m, "tokens", DecodeWeightedProductReserves);
    var fee :- Field(m, "fee", DecodeDecimal);
    var version :- Field(m, "version", DecodeWeightedProductVersion);
    Ok(WeightedProductPool(id, address, balancerPoolId, gasEstimate, tokens, fee, version))
  }

  lemma WeightedProductPoolKeys(p: WeightedProductPool)
    ensures var m := EncodeWeightedProductPool(p).fields;
      "id" in m && m["id"] == Str(p.id) &&
      "address" in m && m["address"] == EncodeAddress(p.address) &&
      "balancerPoolId" in m && m["balancerPoolId"] == EncodeB256(p.balancerPoolId) &&
      "gasEstimate" in m && m["gasEstimate"] == EncodeU256(p.gasEstimate) &&
      "tokens" in m && m["tokens"] == EncodeWeightedProductReserves(p.tokens) &&
      "fee" in m && m["fee"] == EncodeDecimal(p.fee) &&
      "version" in m && m["version"] == EncodeWeightedProductVersion(p.version)
  {
    WeightedProductPoolObjectKeys(Str(p.id), EncodeAddress(p.address), EncodeB256(p.balancerPoolId), EncodeU256(p.gasEstimate), EncodeWeightedProductReserves(p.tokens), EncodeDecimal(p.fee), EncodeWeightedProductVersion(p.version));
  }

  /** The struct never uses the key "kind", so a liquidity tag cannot clash with it. */
  lemma WeightedProductPoolUntagged(p: WeightedProductPool)
    ensures "kind" !in EncodeWeightedProductPool(p).fields
  {
    WeightedProductPoolObjectKeys(Str(p.id), EncodeAddress(p.address), EncodeB256(p.balancerPoolId), EncodeU256(p.gasEstimate), EncodeWeightedProductReserves(p.tokens), EncodeDecimal(p.fee), EncodeWeightedProductVersion(p.version));
  }

  /** Each entry of an encoded WeightedProductPool reads back as the field it was written from. */
  lemma WeightedProductPoolFields(p: WeightedProductPool)
    ensures var m := EncodeWeightedProductPool(p).fields;
      Field(m, "id", DecodeString) == Ok(p.id) &&
      Field(m, "address", DecodeAddress) == Ok(p.address) &&
      Field(m, "balancerPoolId", DecodeB256) == Ok(p.balancerPoolId) &&
      Field(m, "gasEstimate", DecodeU256) == Ok(p.gasEstimate) &&
      Field(m, "tokens", DecodeWeightedProductReserves) == Ok(p.tokens) &&
      Field(m, "fee", DecodeDecimal) == Ok(p.fee) &&
      Field(m, "version", DecodeWeightedProductVersion) == Ok(p.version)
  {
    WeightedProductPoolHeadFields(p);
    WeightedProductPoolTailFields(p);
  }

  lemma WeightedProductPoolHeadFields(p: WeightedProductPool)
    ensures var m := EncodeWeightedProductPool(p).fields;
      Field(m, "id", DecodeString) == Ok(p.id) &&
      Field(m, "address", DecodeAddress) == Ok(p.address) &&
      Field(m, "balancerPoolId", DecodeB256) == Ok(p.balancerPoolId) &&
      Field(m, "gasEstimate", DecodeU256) == Ok(p.gasEstimate)
  {
    WeightedProductPoolKeys(p);
    AddressRoundTrip(p.address);
    B256RoundTrip(p.balancerPoolId);
  }

  lemma WeightedProductPoolTailFields(p: WeightedProductPool)
    ensures var m := EncodeWeightedProductPool(p).fields;
      Field(m, "tokens", DecodeWeightedProductReserves) == Ok(p.tokens) &&
      Field(m, "fee", DecodeDecimal) == Ok(p.fee) &&
      Field(m, "version", DecodeWeightedProductVersion) == Ok(p.version)
  {
    WeightedProductPoolKeys(p);
    WeightedProductReservesRoundTrip(p.tokens);
    WeightedProductVersionNames(p.version, "");
  }

  /** Any object whose entries read as the fields of `p` decodes to `p`. */
  lemma WeightedProductPoolFromFields(m: map<string, Json>, p: WeightedProductPool)
    requires Field(m, "id", DecodeString) == Ok(p.id)
    requires Field(m, "address", DecodeAddress) == Ok(p.address)
    requires Field(m, "balancerPoolId", DecodeB256) == Ok(p.balancerPoolId)
    requires Field(m, "gasEstimate", DecodeU256) == Ok(p.gasEstimate)
    requires Field(m, "tokens", DecodeWeightedProductReserves) == Ok(p.tokens)
    requires Field(m, "fee", DecodeDecimal) == Ok(p.fee)
    requires Field(m, "version", DecodeWeightedProductVersion) == Ok(p.version)
    ensures DecodeWeightedProductPool(Obj(m)) == Ok(p)
  {
  }

  lemma WeightedProductPoolRoundTrip(p: WeightedProductPool)
    ensures DecodeWeightedProductPool(EncodeWeightedProductPool(p)) == Ok(p)
  {
    WeightedProductPoolFields(p);
    WeightedProductPoolFromFields(EncodeWeightedProductPool(p).fields, p);
  }

  /** The object a stable pool is written as, one entry per field under its wire name. */
  function StablePoolObject(id: Json, address: Json, balancerPoolId: Json, gasEstimate: Json, tokens: Json, amplificationParameter: Json, fee: Json): map<string, Json>
  {
    map[
      "id" := id,
      "address" := address,
      "balancerPoolId" := balancerPoolId,
      "gasEstimate" := gasEstimate,
      "tokens" := tokens,
      "amplificationParameter" := amplificationParameter,
      "fee" := fee]
  }

  lemma StablePoolObjectKeysA(id: Json, address: Json, balancerPoolId: Json, gasEstimate: Json, tokens: Json, amplificationParameter: Json, fee: Json)
    ensures var m := StablePoolObject(id, address, balancerPoolId, gasEstimate, tokens, amplificationParameter, fee);
      "id" in m && m["id"] == id &&
      "address" in m && m["address"] == address &&
      "balancerPoolId" in m && m["balancerPoolId"] == balancerPoolId
  {
  }

  lemma StablePoolObjectKeysB(id: Json, address: Json, balancerPoolId: Json, gasEstimate: Json, tokens: Json, amplificationParameter: Json, fee: Json)
    ensures var m := StablePoolObject(id, address, balancerPoolId, gasEstimate, tokens, amplificationParameter, fee);
      "gasEstimate" in m && m["gasEstimate"] == gasEstimate &&
      "tokens" in m && m["tokens"] == tokens &&
      "amplificationParameter" in m && m["amplificationParameter"] == amplificationParameter
  {
  }

  lemma StablePoolObjectKeysC(id: Json, address: Json, balancerPoolId: Json, gasEstimate: Json, tokens: Json, amplificationParameter: Json, fee: Json)
    ensures var m := StablePoolObject(id, address, balancerPoolId, gasEstimate, tokens, amplificationParameter, fee);
      "fee" in m && m["fee"] == fee
  {
  }

  lemma StablePoolObjectKeysD(id: Json, address: Json, balancerPoolId: Json, gasEstimate: Json, tokens: Json, amplificationParameter: Json, fee: Json)
    ensures var m := StablePoolObject(id, address, balancerPoolId, gasEstimate, tokens, amplificationParameter, fee);
      "kind" !in m
  {
  }

  lemma StablePoolObjectKeys(id: Json, address: Json, balancerPoolId: Json, gasEstimate: Json, tokens: Json, amplificationParameter: Json, fee: Json)
    ensures var m := StablePoolObject(id, address, balancerPoolId, gasEstimate, tokens, amplificationParameter, fee);
      "id" in m && m["id"] == id &&
      "address" in m && m["address"] == address &&
      "balancerPoolId" in m && m["balancerPoolId"] == balancerPoolId &&
      "gasEstimate" in m && m["gasEstimate"] == gasEstimate &&
      "tokens" in m && m["tokens"] == tokens &&
      "amplificationParameter" in m && m["amplificationParameter"] == amplificationParameter &&
      "fee" in m && m["fee"] == fee &&
      "kind" !in m
  {
    StablePoolObjectKeysA(id, address, balancerPoolId, gasEstimate, tokens, amplificationParameter, fee);
    StablePoolObjectKeysB(id, address, balancerPoolId, gasEstimate, tokens, amplificationParameter, fee);
    StablePoolObjectKeysC(id, address, balancerPoolId, gasEstimate, tokens, amplificationParameter, fee);
    StablePoolObjectKeysD(id, address, balancerPoolId, gasEstimate, tokens, amplificationParameter, fee);
  }

  function EncodeStablePool(p: StablePool): Json
  {
    Obj(StablePoolObject(Str(p.id), EncodeAddress(p.address), EncodeB256(p.balancerPoolId), EncodeU256(p.gasEstimate), EncodeStableReserves(p.tokens), EncodeDecimal(p.amplificationParameter), EncodeDecimal(p.fee)))
  }

  function DecodeStablePool(j: Json): Decoded<StablePool>
  {
    var m :- DecodeObject(j);
    var id :- Field(m, "id", DecodeString);
    var address :- Field(m, "address", DecodeAddress);
    var balancerPoolId :- Field(m, "balancerPoolId", DecodeB256);
    var gasEstimate :- Field(m, "gasEstimate", DecodeU256);
    var tokens :- Field(m, "tokens", DecodeStableReserves);
    var amplificationParameter :- Field(m, "amplificationParameter", DecodeDecimal);
    var fee :- Field(m, "fee", DecodeDecimal);
    Ok(StablePool(id, address, balancerPoolId, gasEstimate, tokens, amplificationParameter, fee))
  }

  lemma StablePoolKeys(p: StablePool)
    ensures var m := EncodeStablePool(p).fields;
      "id" in m && m["id"] == Str(p.id) &&
      "address" in m && m["address"] == EncodeAddress(p.address) &&
      "balancerPoolId" in m && m["balancerPoolId"] == EncodeB256(p.balancerPoolId) &&
      "gasEstimate" in m && m["gasEstimate"] == EncodeU256(p.gasEstimate) &&
      "tokens" in m && m["tokens"] == EncodeStableReserves(p.tokens) &&
      "amplificationParameter" in m && m["amplificationParameter"] == EncodeDecimal(p.amplificationParameter) &&
      "fee" in m && m["fee"] == EncodeDecimal(p.fee)
  {
    StablePoolObjectKeys(Str(p.id), EncodeAddress(p.address), EncodeB256(p.balancerPoolId), EncodeU256(p.gasEstimate), EncodeStableReserves(p.tokens), EncodeDecimal(p.amplificationParameter), EncodeDecimal(p.fee));
  }

  /** The struct never uses the key "kind", so a liquidity tag cannot clash with it. */
  lemma StablePoolUntagged(p: StablePool)
    ensures "kind" !in EncodeStablePool(p).fields
  {
    StablePoolObjectKeys(Str(p.id), EncodeAddress(p.address), EncodeB256(p.balancerPoolId), EncodeU256(p.gasEstimate), EncodeStableReserves(p.tokens), EncodeDecimal(p.amplificationParameter), EncodeDecimal(p.fee));
  }

  /** Each entry of an encoded StablePool reads back as the field it was written from. */
  lemma StablePoolFields(p: StablePool)
    ensures var m := EncodeStablePool(p).fields;
      Field(m, "id", DecodeString) == Ok(p.id) &&
      Field(m, "address", DecodeAddress) == Ok(p.address) &&
      Field(m, "balancerPoolId", DecodeB256) == Ok(p.balancerPoolId) &&
      Field(m, "gasEstimate", DecodeU256) == Ok(p.gasEstimate) &&
      Field(m, "tokens", DecodeStableReserves) == Ok(p.tokens) &&
      Field(m, "amplificationParameter", DecodeDecimal) == Ok(p.amplificationParameter) &&
      Field(m, "fee", DecodeDecimal) == Ok(p.fee)
  {
    StablePoolHeadFields(p);
    StablePoolTailFields(p);
  }

  lemma StablePoolHeadFields(p: StablePool)
    ensures var m := EncodeStablePool(p).fields;
      Field(m, "id", DecodeString) == Ok(p.id) &&
      Field(m, "address", DecodeAddress) == Ok(p.address) &&
      Field(m, "balancerPoolId", DecodeB256) == Ok(p.balancerPoolId) &&
      Field(m, "gasEstimate", DecodeU256) == Ok(p.gasEstimate)
  {
    StablePoolKeys(p);
    AddressRoundTrip(p.address);
    B256RoundTrip(p.balancerPoolId);
  }

  lemma StablePoolTailFields(p: StablePool)
    ensures var m := EncodeStablePool(p).fields;
      Field(m, "tokens", DecodeStableReserves) == Ok(p.tokens) &&
      Field(m, "amplificationParameter", DecodeDecimal) == Ok(p.amplificationParameter) &&
      Field(m, "fee", DecodeDecimal) == Ok(p.fee)
  {
    var m := EncodeStablePool(p).fields;
    StablePoolKeys(p);
    assert m["tokens"] == EncodeStableReserves(p.tokens);
    StableReservesRoundTrip(p.tokens);
  }

  /** Any object whose entries read as the fields of `p` decodes to `p`. */
  lemma StablePoolFromFields(m: map<string, Json>, p: StablePool)
    requires Field(m, "id", DecodeString) == Ok(p.id)
    requires Field(m, "address", DecodeAddress) == Ok(p.address)
    requires Field(m, "balancerPoolId", DecodeB256) == Ok(p.balancerPoolId)
    requires Field(m, "gasEstimate", DecodeU256) == Ok(p.gasEstimate)
    requires Field(m, "tokens", DecodeStableReserves) == Ok(p.tokens)
    requires Field(m, "amplificationParameter", DecodeDecimal) == Ok(p.amplificationParameter)
    requires Field(m, "fee", DecodeDecimal) == Ok(p.fee)
    ensures DecodeStablePool(Obj(m)) == Ok(p)
  {
  }

  lemma StablePoolRoundTrip(p: StablePool)
    ensures DecodeStablePool(EncodeStablePool(p)) == Ok(p)
  {
    StablePoolFields(p);
    StablePoolFromFields(EncodeStablePool(p).fields, p);
  }

  function EncodeAddresses(xs: seq<Address>): Json
  {
    EncodeSeq(xs, EncodeAddress)
  }

  function DecodeAddresses(j: Json): Decoded<seq<Address>>
  {
    DecodeSeq(j, DecodeAddress)
  }

  lemma AddressesRoundTrip(xs: seq<Address>)
    ensures DecodeAddresses(EncodeAddresses(xs)) == Ok(xs)
  {
    forall a ensures DecodeAddress(EncodeAddress(a)) == Ok(a) { AddressRoundTrip(a); }
    SeqRoundTrip(xs, EncodeAddress, DecodeAddress);
  }

  /** The object a concentrated-liquidity pool is written as, one entry per field under its wire name. */
  function ConcentratedLiquidityPoolObject(id: Json, address: Json, router: Json, gasEstimate: Json, tokens: Json, sqrtPrice: Json, liquidity: Json, tick: Json, liquidityNet: Json, fee: Json): map<string, Json>
  {
    map[
      "id" := id,
      "address" := address,
      "router" := router,
      "gasEstimate" := gasEstimate,
      "tokens" := tokens,
      "sqrtPrice" := sqrtPrice,
      "liquidity" := liquidity,
      "tick" := tick,
      "liquidityNet" := liquidityNet,
      "fee" := fee]
  }

  lemma ConcentratedLiquidityPoolObjectKeysA(id: Json, address: Json, router: Json, gasEstimate: Json, tokens: Json, sqrtPrice: Json, liquidity: Json, tick: Json, liquidityNet: Json, fee: Json)
    ensures var m := ConcentratedLiquidityPoolObject(id, address, router, gasEstimate, tokens, sqrtPrice, liquidity, tick, liquidityNet, fee);
      "id" in m && m["id"] == id &&
      "address" in m && m["address"] == address &&
      "router" in m && m["router"] == router
  {
  }

  lemma ConcentratedLiquidityPoolObjectKeysB(id: Json, address: Json, router: Json, gasEstimate: Json, tokens: Json, sqrtPrice: Json, liquidity: Json, tick: Json, liquidityNet: Json, fee: Json)
    ensures var m := ConcentratedLiquidityPoolObject(id, address, router, gasEstimate, tokens, sqrtPrice, liquidity, tick, liquidityNet, fee);
      "gasEstimate" in m && m["gasEstimate"] == gasEstimate &&
      "tokens" in m && m["tokens"] == tokens &&
      "sqrtPrice" in m && m["sqrtPrice"] == sqrtPrice
  {
  }

  lemma ConcentratedLiquidityPoolObjectKeysC(id: Json, address: Json, router: Json, gasEstimate: Json, tokens: Json, sqrtPrice: Json, liquidity: Json, tick: Json, liquidityNet: Json, fee: Json)
    ensures var m := ConcentratedLiquidityPoolObject(id, address, router, gasEstimate, tokens, sqrtPrice, liquidity, tick, liquidityNet, fee);
      "liquidity" in m && m["liquidity"] == liquidity &&
      "tick" in m && m["tick"] == tick &&
      "liquidityNet" in m && m["liquidityNet"] == liquidityNet
  {
  }

  lemma ConcentratedLiquidityPoolObjectKeysD(id: Json, address: Json, router: Json, gasEstimate: Json, tokens: Json, sqrtPrice: Json, liquidity: Json, tick: Json, liquidityNet: Json, fee: Json)
    ensures var m := ConcentratedLiquidityPoolObject(id, address, router, gasEstimate, tokens, sqrtPrice, liquidity, tick, liquidityNet, fee);
      "fee" in m && m["fee"] == fee
  {
  }

  lemma ConcentratedLiquidityPoolObjectKeysE(id: Json, address: Json, router: Json, gasEstimate: Json, tokens: Json, sqrtPrice: Json, liquidity: Json, tick: Json, liquidityNet: Json, fee: Json)
    ensures var m := ConcentratedLiquidityPoolObject(id, address, router, gasEstimate, tokens, sqrtPrice, liquidity, tick, liquidityNet, fee);
      "kind" !in m
  {
  }

  lemma ConcentratedLiquidityPoolObjectKeys(id: Json, address: Json, router: Json, gasEstimate: Json, tokens: Json, sqrtPrice: Json, liquidity: Json, tick: Json, liquidityNet: Json, fee: Json)
    ensures var m := ConcentratedLiquidityPoolObject(id, address, router, gasEstimate, tokens, sqrtPrice, liquidity, tick, liquidityNet, fee);
      "id" in m && m["id"] == id &&
      "address" in m && m["address"] == address &&
      "router" in m && m["router"] == router &&
      "gasEstimate" in m && m["gasEstimate"] == gasEstimate &&
      "tokens" in m && m["tokens"] == tokens &&
      "sqrtPrice" in m && m["sqrtPrice"] == sqrtPrice &&
      "liquidity" in m && m["liquidity"] == liquidity &&
      "tick" in m && m["tick"] == tick &&
      "liquidityNet" in m && m["liquidityNet"] == liquidityNet &&
      "fee" in m && m["fee"] == fee &&
      "kind" !in m
  {
    ConcentratedLiquidityPoolObjectKeysA(id, address, router, gasEstimate, tokens, sqrtPrice, liquidity, tick, liquidityNet, fee);
    ConcentratedLiquidityPoolObjectKeysB(id, address, router, gasEstimate, tokens, sqrtPrice, liquidity, tick, liquidityNet, fee);
    ConcentratedLiquidityPoolObjectKeysC(id, address, router, gasEstimate, tokens, sqrtPrice, liquidity, tick, liquidityNet, fee);
    ConcentratedLiquidityPoolObjectKeysD(id, address, router, gasEstimate, tokens, sqrtPrice, liquidity, tick, liquidityNet, fee);
    ConcentratedLiquidityPoolObjectKeysE(id, address, router, gasEstimate, tokens, sqrtPrice, liquidity, tick, liquidityNet, fee);
  }

  function EncodeConcentratedLiquidityPool(p: ConcentratedLiquidityPool): Json
  {
    Obj(ConcentratedLiquidityPoolObject(Str(p.id), EncodeAddress(p.address), EncodeAddress(p.router), EncodeU256(p.gasEstimate), EncodeAddresses(p.tokens), EncodeU256(p.sqrtPrice), EncodeU128Text(p.liquidity), Num(p.tick), EncodeLiquidityNet(p.liquidityNet), EncodeDecimal(p.fee)))
  }

  function DecodeConcentratedLiquidityPool(j: Json): Decoded<ConcentratedLiquidityPool>
  {
    var m :- DecodeObject(j);
    var id :- Field(m, "id", DecodeString);
    var address :- Field(m, "address", DecodeAddress);
    var router :- Field(m, "router", DecodeAddress);
    var gasEstimate :- Field(m, "gasEstimate", DecodeU256);
    var tokens :- Field(m, "tokens", DecodeAddresses);
    var sqrtPrice :- Field(m, "sqrtPrice", DecodeU256);
    var liquidity :- Field(m, "liquidity", DecodeU128Text);
    var tick :- Field(m, "tick", DecodeI32);
    var liquidityNet :- Field(m, "liquidityNet", DecodeLiquidityNet);
    var fee :- Field(m, "fee", DecodeDecimal);
    Ok(ConcentratedLiquidityPool(id, address, router, gasEstimate, tokens, sqrtPrice, liquidity, tick, liquidityNet, fee))
  }

  lemma ConcentratedLiquidityPoolKeys(p: ConcentratedLiquidityPool)
    ensures var m := EncodeConcentratedLiquidityPool(p).fields;
      "id" in m && m["id"] == Str(p.id) &&
      "address" in m && m["address"] == EncodeAddress(p.address) &&
      "router" in m && m["router"] == EncodeAddress(p.router) &&
      "gasEstimate" in m && m["gasEstimate"] == EncodeU256(p.gasEstimate) &&
      "tokens" in m && m["tokens"] == EncodeAddresses(p.tokens) &&
      "sqrtPrice" in m && m["sqrtPrice"] == EncodeU256(p.sqrtPrice) &&
      "liquidity" in m && m["liquidity"] == EncodeU128Text(p.liquidity) &&
      "tick" in m && m["tick"] == Num(p.tick) &&
      "liquidityNet" in m && m["liquidityNet"] == EncodeLiquidityNet(p.liquidityNet) &&
      "fee" in m && m["fee"] == EncodeDecimal(p.fee)
  {
    ConcentratedLiquidityPoolObjectKeys(Str(p.id), EncodeAddress(p.address), EncodeAddress(p.router), EncodeU256(p.gasEstimate), EncodeAddresses(p.tokens), EncodeU256(p.sqrtPrice), EncodeU128Text(p.liquidity), Num(p.tick), EncodeLiquidityNet(p.liquidityNet), EncodeDecimal(p.fee));
  }

  /** The struct never uses the key "kind", so a liquidity tag cannot clash with it. */
  lemma ConcentratedLiquidityPoolUntagged(p: ConcentratedLiquidityPool)
    ensures "kind" !in EncodeConcentratedLiquidityPool(p).fields
  {
    ConcentratedLiquidityPoolObjectKeys(Str(p.id), EncodeAddress(p.address), EncodeAddress(p.router), EncodeU256(p.gasEstimate), EncodeAddresses(p.tokens), EncodeU256(p.sqrtPrice), EncodeU128Text(p.liquidity), Num(p.tick), EncodeLiquidityNet(p.liquidityNet), EncodeDecimal(p.fee));
  }

  /** The tokens, liquidity and liquidityNet entries of an encoded pool read back as written. */
  lemma ConcentratedLiquidityPoolTickFields(p: ConcentratedLiquidityPool)
    ensures var m := EncodeConcentratedLiquidityPool(p).fields;
      Field(m, "tokens", DecodeAddresses) == Ok(p.tokens) &&
      Field(m, "liquidity", DecodeU128Text) == Ok(p.liquidity) &&
      Field(m, "liquidityNet", DecodeLiquidityNet) == Ok(p.liquidityNet)
  {
    ConcentratedLiquidityPoolKeys(p);
    AddressesRoundTrip(p.tokens);
    TextIntegersRoundTrip(0, p.liquidity, 0);
    LiquidityNetRoundTrip(p.liquidityNet);
  }

  /** The remaining entries of an encoded pool read back as written. */
  lemma ConcentratedLiquidityPoolPlainFields(p: ConcentratedLiquidityPool)
    ensures var m := EncodeConcentratedLiquidityPool(p).fields;
      Field(m, "id", DecodeString) == Ok(p.id) &&
      Field(m, "address", DecodeAddress) == Ok(p.address) &&
      Field(m, "router", DecodeAddress) == Ok(p.router) &&
      Field(m, "gasEstimate", DecodeU256) == Ok(p.gasEstimate) &&
      Field(m, "sqrtPrice", DecodeU256) == Ok(p.sqrtPrice) &&
      Field(m, "tick", DecodeI32) == Ok(p.tick) &&
      Field(m, "fee", DecodeDecimal) == Ok(p.fee)
  {
    ConcentratedLiquidityPoolHeadFields(p);
    ConcentratedLiquidityPoolPriceFields(p);
  }

  lemma ConcentratedLiquidityPoolHeadFields(p: ConcentratedLiquidityPool)
    ensures var m := EncodeConcentratedLiquidityPool(p).fields;
      Field(m, "id", DecodeString) == Ok(p.id) &&
      Field(m, "address", DecodeAddress) == Ok(p.address) &&
      Field(m, "router", DecodeAddress) == Ok(p.router) &&
      Field(m, "gasEstimate", DecodeU256) == Ok(p.gasEstimate)
  {
    ConcentratedLiquidityPoolKeys(p);
    AddressRoundTrip(p.address);
    AddressRoundTrip(p.router);
  }

  lemma ConcentratedLiquidityPoolPriceFields(p: ConcentratedLiquidityPool)
    ensures var m := EncodeConcentratedLiquidityPool(p).fields;
      Field(m, "sqrtPrice", DecodeU256) == Ok(p.sqrtPrice) &&
      Field(m, "tick", DecodeI32) == Ok(p.tick) &&
      Field(m, "fee", DecodeDecimal) == Ok(p.fee)
  {
    ConcentratedLiquidityPoolKeys(p);
  }

  lemma ConcentratedLiquidityPoolRoundTrip(p: ConcentratedLiquidityPool)
    ensures DecodeConcentratedLiquidityPool(EncodeConcentratedLiquidityPool(p)) == Ok(p)
  {
    ConcentratedLiquidityPoolTickFields(p);
    ConcentratedLiquidityPoolPlainFields(p);
  }

  /** The object a foreign limit order is written as, one entry per field under its wire name. */
  function ForeignLimitOrderObject(id: Json, address: Json, gasEstimate: Json, hash: Json, makerToken: Json, takerToken: Json, makerAmount: Json, takerAmount: Json, takerTokenFeeAmount: Json): map<string, Json>
  {
    map[
      "id" := id,
      "address" := address,
      "gasEstimate" := gasEstimate,
      "hash" := hash,
      "makerToken" := makerToken,
      "takerToken" := takerToken,
      "makerAmount" := makerAmount,
      "takerAmount" := takerAmount,
      "takerTokenFeeAmount" := takerTokenFeeAmount]
  }

  lemma ForeignLimitOrderObjectKeysA(id: Json, address: Json, gasEstimate: Json, hash: Json, makerToken: Json, takerToken: Json, makerAmount: Json, takerAmount: Json, takerTokenFeeAmount: Json)
    ensures var m := ForeignLimitOrderObject(id, address, gasEstimate, hash, makerToken, takerToken, makerAmount, takerAmount, takerTokenFeeAmount);
      "id" in m && m["id"] == id &&
      "address" in m && m["address"] == address &&
      "gasEstimate" in m && m["gasEstimate"] == gasEstimate
  {
  }

  lemma ForeignLimitOrderObjectKeysB(id: Json, address: Json, gasEstimate: Json, hash: Json, makerToken: Json, takerToken: Json, makerAmount: Json, takerAmount: Json, takerTokenFeeAmount: Json)
    ensures var m := ForeignLimitOrderObject(id, address, gasEstimate, hash, makerToken, takerToken, makerAmount, takerAmount, takerTokenFeeAmount);
      "hash" in m && m["hash"] == hash &&
      "makerToken" in m && m["makerToken"] == makerToken &&
      "takerToken" in m && m["takerToken"] == takerToken
  {
  }

  lemma ForeignLimitOrderObjectKeysC(id: Json, address: Json, gasEstimate: Json, hash: Json, makerToken: Json, takerToken: Json, makerAmount: Json, takerAmount: Json, takerTokenFeeAmount: Json)
    ensures var m := ForeignLimitOrderObject(id, address, gasEstimate, hash, makerToken, takerToken, makerAmount, takerAmount, takerTokenFeeAmount);
      "makerAmount" in m && m["makerAmount"] == makerAmount &&
      "takerAmount" in m && m["takerAmount"] == takerAmount &&
      "takerTokenFeeAmount" in m && m["takerTokenFeeAmount"] == takerTokenFeeAmount
  {
  }

  lemma ForeignLimitOrderObjectKeysD(id: Json, address: Json, gasEstimate: Json, hash: Json, makerToken: Json, takerToken: Json, makerAmount: Json, takerAmount: Json, takerTokenFeeAmount: Json)
    ensures var m := ForeignLimitOrderObject(id, address, gasEstimate, hash, makerToken, takerToken, makerAmount, takerAmount, takerTokenFeeAmount);
      "kind" !in m
  {
  }

  lemma ForeignLimitOrderObjectKeys(id: Json, address: Json, gasEstimate: Json, hash: Json, makerToken: Json, takerToken: Json, makerAmount: Json, takerAmount: Json, takerTokenFeeAmount: Json)
    ensures var m := ForeignLimitOrderObject(id, address, gasEstimate, hash, makerToken, takerToken, makerAmount, takerAmount, takerTokenFeeAmount);
      "id" in m && m["id"] == id &&
      "address" in m && m["address"] == address &&
      "gasEstimate" in m && m["gasEstimate"] == gasEstimate &&
      "hash" in m && m["hash"] == hash &&
      "makerToken" in m && m["makerToken"] == makerToken &&
      "takerToken" in m && m["takerToken"] == takerToken &&
      "makerAmount" in m && m["makerAmount"] == makerAmount &&
      "takerAmount" in m && m["takerAmount"] == takerAmount &&
      "takerTokenFeeAmount" in m && m["takerTokenFeeAmount"] == takerTokenFeeAmount &&
      "kind" !in m
  {
    ForeignLimitOrderObjectKeysA(id, address, gasEstimate, hash, makerToken, takerToken, makerAmount, takerAmount, takerTokenFeeAmount);
    ForeignLimitOrderObjectKeysB(id, address, gasEstimate, hash, makerToken, takerToken, makerAmount, takerAmount, takerTokenFeeAmount);
    ForeignLimitOrderObjectKeysC(id, address, gasEstimate, hash, makerToken, takerToken, makerAmount, takerAmount, takerTokenFeeAmount);
    ForeignLimitOrderObjectKeysD(id, address, gasEstimate, hash, makerToken, takerToken, makerAmount, takerAmount, takerTokenFeeAmount);
  }

  function EncodeForeignLimitOrder(p: ForeignLimitOrder): Json
  {
    Obj(ForeignLimitOrderObject(Str(p.id), EncodeAddress(p.address), EncodeU256(p.gasEstimate), EncodeB256(p.hash), EncodeAddress(p.makerToken), EncodeAddress(p.takerToken), EncodeU256(p.makerAmount), EncodeU256(p.takerAmount), EncodeU256(p.takerTokenFeeAmount)))
  }

  function DecodeForeignLimitOrder(j: Json): Decoded<ForeignLimitOrder>
  {
    var m :- DecodeObject(j);
    var id :- Field(m, "id", DecodeString);
    var address :- Field(m, "address", DecodeAddress);
    var gasEstimate :- Field(m, "gasEstimate", DecodeU256);
    var hash :- Field(m, "hash", DecodeB256);
    var makerToken :- Field(m, "makerToken", DecodeAddress);
    var takerToken :- Field(m, "takerToken", DecodeAddress);
    var makerAmount :- Field(m, "makerAmount", DecodeU256);
    var takerAmount :- Field(m, "takerAmount", DecodeU256);
    var takerTokenFeeAmount :- Field(m, "takerTokenFeeAmount", DecodeU256);
    Ok(ForeignLimitOrder(id, address, gasEstimate, hash, makerToken, takerToken, makerAmount, takerAmount, takerTokenFeeAmount))
  }

  lemma ForeignLimitOrderKeys(p: ForeignLimitOrder)
    ensures var m := EncodeForeignLimitOrder(p).fields;
      "id" in m && m["id"] == Str(p.id) &&
      "address" in m && m["address"] == EncodeAddress(p.address) &&
      "gasEstimate" in m && m["gasEstimate"] == EncodeU256(p.gasEstimate) &&
      "hash" in m && m["hash"] == EncodeB256(p.hash) &&
      "makerToken" in m && m["makerToken"] == EncodeAddress(p.makerToken) &&
      "takerToken" in m && m["takerToken"] == EncodeAddress(p.takerToken) &&
      "makerAmount" in m && m["makerAmount"] == EncodeU256(p.makerAmount) &&
      "takerAmount" in m && m["takerAmount"] == EncodeU256(p.takerAmount) &&
      "takerTokenFeeAmount" in m && m["takerTokenFeeAmount"] == EncodeU256(p.takerTokenFeeAmount)
  {
    ForeignLimitOrderObjectKeys(Str(p.id), EncodeAddress(p.address), EncodeU256(p.gasEstimate), EncodeB256(p.hash), EncodeAddress(p.makerToken), EncodeAddress(p.takerToken), EncodeU256(p.makerAmount), EncodeU256(p.takerAmount), EncodeU256(p.takerTokenFeeAmount));
  }

  /** The struct never uses the key "kind", so a liquidity tag cannot clash with it. */
  lemma ForeignLimitOrderUntagged(p: ForeignLimitOrder)
    ensures "kind" !in EncodeForeignLimitOrder(p).fields
  {
    ForeignLimitOrderObjectKeys(Str(p.id), EncodeAddress(p.address), EncodeU256(p.gasEstimate), EncodeB256(p.hash), EncodeAddress(p.makerToken), EncodeAddress(p.takerToken), EncodeU256(p.makerAmount), EncodeU256(p.takerAmount), EncodeU256(p.takerTokenFeeAmount));
  }

  /** Each entry of an encoded ForeignLimitOrder reads back as the field it was written from. */
  lemma ForeignLimitOrderFields(p: ForeignLimitOrder)
    ensures var m := EncodeForeignLimitOrder(p).fields;
      Field(m, "id", DecodeString) == Ok(p.id) &&
      Field(m, "address", DecodeAddress) == Ok(p.address) &&
      Field(m, "gasEstimate", DecodeU256) == Ok(p.gasEstimate) &&
      Field(m, "hash", DecodeB256) == Ok(p.hash) &&
      Field(m, "makerToken", DecodeAddress) == Ok(p.makerToken) &&
      Field(m, "takerToken", DecodeAddress) == Ok(p.takerToken) &&
      Field(m, "makerAmount", DecodeU256) == Ok(p.makerAmount) &&
      Field(m, "takerAmount", DecodeU256) == Ok(p.takerAmount) &&
      Field(m, "takerTokenFeeAmount", DecodeU256) == Ok(p.takerTokenFeeAmount)
  {
    ForeignLimitOrderHeadFields(p);
    ForeignLimitOrderTokenFields(p);
    ForeignLimitOrderAmountFields(p);
  }

  lemma ForeignLimitOrderHeadFields(p: ForeignLimitOrder)
    ensures var m := EncodeForeignLimitOrder(p).fields;
      Field(m, "id", DecodeString) == Ok(p.id) &&
      Field(m, "address", DecodeAddress) == Ok(p.address) &&
      Field(m, "gasEstimate", DecodeU256) == Ok(p.gasEstimate) &&
      Field(m, "hash", DecodeB256) == Ok(p.hash)
  {
    ForeignLimitOrderKeys(p);
    AddressRoundTrip(p.address);
    B256RoundTrip(p.hash);
  }

  lemma ForeignLimitOrderTokenFields(p: ForeignLimitOrder)
    ensures var m := EncodeForeignLimitOrder(p).fields;
      Field(m, "makerToken", DecodeAddress) == Ok(p.makerToken) &&
      Field(m, "takerToken", DecodeAddress) == Ok(p.takerToken)
  {
    ForeignLimitOrderKeys(p);
    AddressRoundTrip(p.makerToken);
    AddressRoundTrip(p.takerToken);
  }

  lemma ForeignLimitOrderAmountFields(p: ForeignLimitOrder)
    ensures var m := EncodeForeignLimitOrder(p).fields;
      Field(m, "makerAmount", DecodeU256) == Ok(p.makerAmount) &&
      Field(m, "takerAmount", DecodeU256) == Ok(p.takerAmount) &&
      Field(m, "takerTokenFeeAmount", DecodeU256) == Ok(p.takerTokenFeeAmount)
  {
    ForeignLimitOrderKeys(p);
  }

  /** Any object whose entries read as the fields of `p` decodes to `p`. */
  lemma ForeignLimitOrderFromFields(m: map<string, Json>, p: ForeignLimitOrder)
    requires Field(m, "id", DecodeString) == Ok(p.id)
    requires Field(m, "address", DecodeAddress) == Ok(p.address)
    requires Field(m, "gasEstimate", DecodeU256) == Ok(p.gasEstimate)
    requires Field(m, "hash", DecodeB256) == Ok(p.hash)
    requires Field(m, "makerToken", DecodeAddress) == Ok(p.makerToken)
    requires Field(m, "takerToken", DecodeAddress) == Ok(p.takerToken)
    requires Field(m, "makerAmount", DecodeU256) == Ok(p.makerAmount)
    requires Field(m, "takerAmount", DecodeU256) == Ok(p.takerAmount)
    requires Field(m, "takerTokenFeeAmount", DecodeU256) == Ok(p.takerTokenFeeAmount)
    ensures DecodeForeignLimitOrder(Obj(m)) == Ok(p)
  {
  }

  lemma ForeignLimitOrderRoundTrip(p: ForeignLimitOrder)
    ensures DecodeForeignLimitOrder(EncodeForeignLimitOrder(p)) == Ok(p)
  {
    ForeignLimitOrderFields(p);
    ForeignLimitOrderFromFields(EncodeForeignLimitOrder(p).fields, p);
  }

  // ---------------------------------------------------------------------
  // Liquidity: internally tagged by "kind"
  // ---------------------------------------------------------------------

  /** The camelCase tag of each liquidity variant. */
  function LiquidityKind(l: Liquidity): string
  {
    match l
    case ConstantProduct(_) => "constantProduct"
    case WeightedProduct(_) => "weightedProduct"
    case Stable(_) => "stable"
    case ConcentratedLiquidity(_) => "concentratedLiquidity"
    case LimitOrder(_) => "limitOrder"
  }

  /** The entries of the variant's own struct. */
  function LiquidityPayload(l: Liquidity): map<string, Json>
  {
    match l
    case ConstantProduct(p) => EncodeConstantProductPool(p).fields
    case WeightedProduct(p) => EncodeWeightedProductPool(p).fields
    case Stable(p) => EncodeStablePool(p).fields
    case ConcentratedLiquidity(p) => EncodeConcentratedLiquidityPool(p).fields
    case LimitOrder(p) => EncodeForeignLimitOrder(p).fields
  }

  function EncodeLiquidity(l: Liquidity): Json
  {
    TagObject("kind", LiquidityKind(l), LiquidityPayload(l))
  }

  /** Reads the struct of the variant a tag names; any other tag is refused. */
  function DecodeLiquidityVariant(kind: string, j: Json): (r: Decoded<Liquidity>)
    ensures r.Ok? ==> LiquidityKind(r.value) == kind
  {
    if kind == "constantProduct" then
      var p :- DecodeConstantProductPool(j); Ok(ConstantProduct(p))
    else if kind == "weightedProduct" then
      var p :- DecodeWeightedProductPool(j); Ok(WeightedProduct(p))
    else if kind == "stable" then
      var p :- DecodeStablePool(j); Ok(Stable(p))
    else if kind == "concentratedLiquidity" then
      var p :- DecodeConcentratedLiquidityPool(j); Ok(ConcentratedLiquidity(p))
    else if kind == "limitOrder" then
      var p :- DecodeForeignLimitOrder(j); Ok(LimitOrder(p))
    else Err(UnknownVariant(kind))
  }

  function DecodeLiquidity(j: Json): Decoded<Liquidity>
  {
    DecodeTagged(j, "kind", DecodeLiquidityVariant)
  }

  /** The payload never uses the tag key, so the tag can be added and removed without loss. */
  lemma LiquidityPayloadUntagged(l: Liquidity)
    ensures "kind" !in LiquidityPayload(l)
  {
    match l
    case ConstantProduct(p) => ConstantProductPoolUntagged(p);
    case WeightedProduct(p) => WeightedProductPoolUntagged(p);
    case Stable(p) => StablePoolUntagged(p);
    case ConcentratedLiquidity(p) => ConcentratedLiquidityPoolUntagged(p);
    case LimitOrder(p) => ForeignLimitOrderUntagged(p);
  }

  lemma ConstantProductVariant(p: ConstantProductPool)
    ensures DecodeLiquidityVariant("constantProduct", EncodeConstantProductPool(p)) == Ok(ConstantProduct(p))
  {
    ConstantProductPoolRoundTrip(p);
  }

  lemma WeightedProductVariant(p: WeightedProductPool)
    ensures DecodeLiquidityVariant("weightedProduct", EncodeWeightedProductPool(p)) == Ok(WeightedProduct(p))
  {
    WeightedProductPoolRoundTrip(p);
  }

  lemma StableVariant(p: StablePool)
    ensures DecodeLiquidityVariant("stable", EncodeStablePool(p)) == Ok(Stable(p))
  {
    StablePoolRoundTrip(p);
  }

  lemma ConcentratedLiquidityVariant(p: ConcentratedLiquidityPool)
    ensures DecodeLiquidityVariant("concentratedLiquidity", EncodeConcentratedLiquidityPool(p)) == Ok(ConcentratedLiquidity(p))
  {
    ConcentratedLiquidityPoolRoundTrip(p);
  }

  lemma LimitOrderVariant(p: ForeignLimitOrder)
    ensures DecodeLiquidityVariant("limitOrder", EncodeForeignLimitOrder(p)) == Ok(LimitOrder(p))
  {
    ForeignLimitOrderRoundTrip(p);
  }

  /** Each variant's struct reads back through the reader its own tag selects. */
  lemma LiquidityVariantRoundTrip(l: Liquidity)
    ensures DecodeLiquidityVariant(LiquidityKind(l), Obj(LiquidityPayload(l))) == Ok(l)
  {
    match l
    case ConstantProduct(p) =>
      ConstantProductVariant(p);
      assert Obj(LiquidityPayload(l)) == EncodeConstantProductPool(p);
    case WeightedProduct(p) =>
      WeightedProductVariant(p);
      assert Obj(LiquidityPayload(l)) == EncodeWeightedProductPool(p);
    case Stable(p) =>
      StableVariant(p);
      assert Obj(LiquidityPayload(l)) == EncodeStablePool(p);
    case ConcentratedLiquidity(p) =>
      ConcentratedLiquidityVariant(p);
      assert Obj(LiquidityPayload(l)) == EncodeConcentratedLiquidityPool(p);
    case LimitOrder(p) =>
      LimitOrderVariant(p);
      assert Obj(LiquidityPayload(l)) == EncodeForeignLimitOrder(p);
  }

  lemma LiquidityRoundTrip(l: Liquidity)
    ensures DecodeLiquidity(EncodeLiquidity(l)) == Ok(l)
  {
    LiquidityPayloadUntagged(l);
    TaggedRoundTrip("kind", LiquidityKind(l), LiquidityPayload(l), DecodeLiquidityVariant);
    LiquidityVariantRoundTrip(l);
  }

  /** An encoded liquidity is its struct's object plus the variant's tag under "kind". */
  lemma LiquidityShape(l: Liquidity)
    ensures var j := EncodeLiquidity(l);
      j.Obj? && j.fields.Keys == LiquidityPayload(l).Keys + {"kind"} &&
      j.fields["kind"] == Str(LiquidityKind(l)) && j.fields - {"kind"} == LiquidityPayload(l)
  {
    LiquidityPayloadUntagged(l);
    TagObjectShape("kind", LiquidityKind(l), LiquidityPayload(l));
  }

  /** The five tags are distinct, so the tag alone tells the variants apart. */
  lemma LiquidityKindInjective(a: Liquidity, b: Liquidity)
    requires LiquidityKind(a) == LiquidityKind(b)
    ensures a.ConstantProduct? <==> b.ConstantProduct?
    ensures a.WeightedProduct? <==> b.WeightedProduct?
    ensures a.Stable? <==> b.Stable?
    ensures a.ConcentratedLiquidity? <==> b.ConcentratedLiquidity?
    ensures a.LimitOrder? <==> b.LimitOrder?
  {
  }

  /** A tag outside the five is refused, as is an object without a string tag. */
  lemma LiquidityRefusesUnknownKind(m: map<string, Json>, kind: string)
    requires "kind" in m && m["kind"] == Str(kind)
    requires kind !in {"constantProduct", "weightedProduct", "stable", "concentratedLiquidity", "limitOrder"}
    ensures DecodeLiquidity(Obj(m)) == Err(UnknownVariant(kind))
  {
  }

  lemma LiquidityRequiresKind(m: map<string, Json>)
    requires "kind" !in m
    ensures DecodeLiquidity(Obj(m)) == Err(MissingField("kind"))
  {
  }

  // ---------------------------------------------------------------------
  // Auction
  // ---------------------------------------------------------------------

  function EncodeTokens(m: map<Address, Token>): Json
  {
    EncodeAddressMap(m, EncodeToken)
  }

  function DecodeTokens(j: Json): Decoded<map<Address, Token>>
  {
    DecodeAddressMap(j, DecodeToken)
  }

  lemma TokensRoundTrip(m: map<Address, Token>)
    ensures DecodeTokens(EncodeTokens(m)) == Ok(m)
  {
    forall t ensures DecodeToken(EncodeToken(t)) == Ok(t) { TokenRoundTrip(t); }
    AddressMapRoundTrip(m, EncodeToken, DecodeToken);
  }

  function EncodeOrders(xs: seq<Order>): Json
  {
    EncodeSeq(xs, EncodeOrder)
  }

  function DecodeOrders(j: Json): Decoded<seq<Order>>
  {
    DecodeSeq(j, DecodeOrder)
  }

  lemma OrdersRoundTrip(xs: seq<Order>)
    ensures DecodeOrders(EncodeOrders(xs)) == Ok(xs)
  {
    forall o ensures DecodeOrder(EncodeOrder(o)) == Ok(o) { OrderRoundTrip(o); }
    SeqRoundTrip(xs, EncodeOrder, DecodeOrder);
  }

  function EncodeLiquidities(xs: seq<Liquidity>): Json
  {
    EncodeSeq(xs, EncodeLiquidity)
  }

  function DecodeLiquidities(j: Json): Decoded<seq<Liquidity>>
  {
    DecodeSeq(j, DecodeLiquidity)
  }

  lemma LiquiditiesRoundTrip(xs: seq<Liquidity>)
    ensures DecodeLiquidities(EncodeLiquidities(xs)) == Ok(xs)
  {
    forall l ensures DecodeLiquidity(EncodeLiquidity(l)) == Ok(l) { LiquidityRoundTrip(l); }
    SeqRoundTrip(xs, EncodeLiquidity, DecodeLiquidity);
  }

  /** The auction id: an optional i64 written as its decimal text. */
  function EncodeAuctionId(id: Option<I64>): Json
  {
    EncodeOption(id, EncodeI64Text)
  }

  /** The object an auction is written as, one entry per field under its wire name. */
  function AuctionObject(id: Json, tokens: Json, orders: Json, liquidity: Json, effectiveGasPrice: Json, deadline: Json, surplusCapturingJitOrderOwners: Json): map<string, Json>
  {
    map[
      "id" := id,
      "tokens" := tokens,
      "orders" := orders,
      "liquidity" := liquidity,
      "effectiveGasPrice" := effectiveGasPrice,
      "deadline" := deadline,
      "surplusCapturingJitOrderOwners" := surplusCapturingJitOrderOwners]
  }

  lemma AuctionObjectKeysA(id: Json, tokens: Json, orders: Json, liquidity: Json, effectiveGasPrice: Json, deadline: Json, surplusCapturingJitOrderOwners: Json)
    ensures var m := AuctionObject(id, tokens, orders, liquidity, effectiveGasPrice, deadline, surplusCapturingJitOrderOwners);
      "id" in m && m["id"] == id &&
      "tokens" in m && m["tokens"] == tokens &&
      "orders" in m && m["orders"] == orders
  {
  }

  lemma AuctionObjectKeysB(id: Json, tokens: Json, orders: Json, liquidity: Json, effectiveGasPrice: Json, deadline: Json, surplusCapturingJitOrderOwners: Json)
    ensures var m := AuctionObject(id, tokens, orders, liquidity, effectiveGasPrice, deadline, surplusCapturingJitOrderOwners);
      "liquidity" in m && m["liquidity"] == liquidity &&
      "effectiveGasPrice" in m && m["effectiveGasPrice"] == effectiveGasPrice &&
      "deadline" in m && m["deadline"] == deadline
  {
  }

  lemma AuctionObjectKeysC(id: Json, tokens: Json, orders: Json, liquidity: Json, effectiveGasPrice: Json, deadline: Json, surplusCapturingJitOrderOwners: Json)
    ensures var m := AuctionObject(id, tokens, orders, liquidity, effectiveGasPrice, deadline, surplusCapturingJitOrderOwners);
      "surplusCapturingJitOrderOwners" in m && m["surplusCapturingJitOrderOwners"] == surplusCapturingJitOrderOwners
  {
  }

  lemma AuctionObjectKeys(id: Json, tokens: Json, orders: Json, liquidity: Json, effectiveGasPrice: Json, deadline: Json, surplusCapturingJitOrderOwners: Json)
    ensures var m := AuctionObject(id, tokens, orders, liquidity, effectiveGasPrice, deadline, surplusCapturingJitOrderOwners);
      "id" in m && m["id"] == id &&
      "tokens" in m && m["tokens"] == tokens &&
      "orders" in m && m["orders"] == orders &&
      "liquidity" in m && m["liquidity"] == liquidity &&
      "effectiveGasPrice" in m && m["effectiveGasPrice"] == effectiveGasPrice &&
      "deadline" in m && m["deadline"] == deadline &&
      "surplusCapturingJitOrderOwners" in m && m["surplusCapturingJitOrderOwners"] == surplusCapturingJitOrderOwners
  {
    AuctionObjectKeysA(id, tokens, orders, liquidity, effectiveGasPrice, deadline, surplusCapturingJitOrderOwners);
    AuctionObjectKeysB(id, tokens, orders, liquidity, effectiveGasPrice, deadline, surplusCapturingJitOrderOwners);
    AuctionObjectKeysC(id, tokens, orders, liquidity, effectiveGasPrice, deadline, surplusCapturingJitOrderOwners);
  }

  function EncodeAuction(a: Auction): Json
  {
    Obj(AuctionObject(EncodeAuctionId(a.id), EncodeTokens(a.tokens), EncodeOrders(a.orders), EncodeLiquidities(a.liquidity), EncodeU256(a.effectiveGasPrice), EncodeDateTime(a.deadline), EncodeAddresses(a.surplusCapturingJitOrderOwners)))
  }

  function DecodeAuction(j: Json): Decoded<Auction>
  {
    var m :- DecodeObject(j);
    var id :- OptionField(m, "id", DecodeI64Text);
    var tokens :- Field(m, "tokens", DecodeTokens);
    var orders :- Field(m, "orders", DecodeOrders);
    var liquidity :- Field(m, "liquidity", DecodeLiquidities);
    var effectiveGasPrice :- Field(m, "effectiveGasPrice", DecodeU256);
    var deadline :- Field(m, "deadline", DecodeDateTime);
    var surplusCapturingJitOrderOwners :- Field(m, "surplusCapturingJitOrderOwners", DecodeAddresses);
    Ok(Auction(id, tokens, orders, liquidity, effectiveGasPrice, deadline, surplusCapturingJitOrderOwners))
  }

  lemma AuctionKeys(a: Auction)
    ensures var m := EncodeAuction(a).fields;
      "id" in m && m["id"] == EncodeAuctionId(a.id) &&
      "tokens" in m && m["tokens"] == EncodeTokens(a.tokens) &&
      "orders" in m && m["orders"] == EncodeOrders(a.orders) &&
      "liquidity" in m && m["liquidity"] == EncodeLiquidities(a.liquidity) &&
      "effectiveGasPrice" in m && m["effectiveGasPrice"] == EncodeU256(a.effectiveGasPrice) &&
      "deadline" in m && m["deadline"] == EncodeDateTime(a.deadline) &&
      "surplusCapturingJitOrderOwners" in m && m["surplusCapturingJitOrderOwners"] == EncodeAddresses(a.surplusCapturingJitOrderOwners)
  {
    AuctionObjectKeys(EncodeAuctionId(a.id), EncodeTokens(a.tokens), EncodeOrders(a.orders), EncodeLiquidities(a.liquidity), EncodeU256(a.effectiveGasPrice), EncodeDateTime(a.deadline), EncodeAddresses(a.surplusCapturingJitOrderOwners));
  }

  /** The id reads back from its decimal text, or from the null written for None. */
  lemma AuctionIdRoundTrip(id: Option<I64>)
    ensures DecodeOption(EncodeAuctionId(id), DecodeI64Text) == Ok(id)
  {
    if id.Some? {
      TextIntegersRoundTrip(id.value, 0, 0);
    }
  }

  /** The three collections of an encoded auction read back as written. */
  lemma AuctionCollectionFields(a: Auction)
    ensures var m := EncodeAuction(a).fields;
      Field(m, "tokens", DecodeTokens) == Ok(a.tokens) &&
      Field(m, "orders", DecodeOrders) == Ok(a.orders) &&
      Field(m, "liquidity", DecodeLiquidities) == Ok(a.liquidity)
  {
    AuctionKeys(a);
    TokensRoundTrip(a.tokens);
    OrdersRoundTrip(a.orders);
    LiquiditiesRoundTrip(a.liquidity);
  }

  /** The remaining entries of an encoded auction read back as written. */
  lemma AuctionPlainFields(a: Auction)
    ensures var m := EncodeAuction(a).fields;
      OptionField(m, "id", DecodeI64Text) == Ok(a.id) &&
      Field(m, "effectiveGasPrice", DecodeU256) == Ok(a.effectiveGasPrice) &&
      Field(m, "deadline", DecodeDateTime) == Ok(a.deadline) &&
      Field(m, "surplusCapturingJitOrderOwners", DecodeAddresses) == Ok(a.surplusCapturingJitOrderOwners)
  {
    AuctionKeys(a);
    AuctionIdRoundTrip(a.id);
    AddressesRoundTrip(a.surplusCapturingJitOrderOwners);
  }

  lemma AuctionRoundTrip(a: Auction)
    ensures DecodeAuction(EncodeAuction(a)) == Ok(a)
  {
    AuctionCollectionFields(a);
    AuctionPlainFields(a);
  }

  /** The id is written as decimal text, never as a JSON number, and a bare number is refused. */
  lemma AuctionIdIsText(i: I64)
    ensures EncodeAuctionId(Some(i)) == Str(DecimalText.IntText(i))
    ensures EncodeAuctionId(None) == Null
    ensures DecodeOption(Num(i), DecodeI64Text).Err?
  {
  }

  /** The id of the recorded auction response, "9008466", reads as Some(9008466). */
  lemma AuctionIdExample()
    ensures OptionField(map["id" := Str("9008466")], "id", DecodeI64Text) == Ok(Some(9008466))
  {
    assert DecimalText.NatText(9008466) == "9008466" by {
      assert DecimalText.NatText(9) == "9";
      assert DecimalText.NatText(90) == "90";
      assert DecimalText.NatText(900) == "900";
      assert DecimalText.NatText(9008) == "9008";
      assert DecimalText.NatText(90084) == "90084";
      assert DecimalText.NatText(900846) == "900846";
    }
    TextIntegersRoundTrip(9008466, 0, 0);
  }

  /** Id 123 is written as the string "123". */
  lemma AuctionIdText123()
    ensures EncodeAuctionId(Some(123)) == Str("123")
  {
    assert DecimalText.NatText(123) == "123" by {
      assert DecimalText.NatText(1) == "1";
      assert DecimalText.NatText(12) == "12";
    }
  }

  /** An auction with id 123 and nothing else writes its id as "123" and reads back unchanged. */
  lemma AuctionSerializeExample()
    ensures var a := Auction(Some(123), map[], [], [], 0, DateTime(0, 0), []);
      "id" in EncodeAuction(a).fields && EncodeAuction(a).fields["id"] == Str("123") &&
      DecodeAuction(EncodeAuction(a)) == Ok(a)
  {
    var a := Auction(Some(123), map[], [], [], 0, DateTime(0, 0), []);
    AuctionKeys(a);
    AuctionRoundTrip(a);
    AuctionIdText123();
  }
}
