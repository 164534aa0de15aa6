/**
 * The solutions a solver returns (src/solution.rs): clearing prices, trades
 * against user and just-in-time orders, and the interactions that settle
 * them, with the serde rules that fix their wire form.
 */
module SolutionSchema {
  import opened Wrappers
  import opened Primitives
  import opened Json

  // ---------------------------------------------------------------------
  // Closed name tables of the unit enums (all camelCase)
  // ---------------------------------------------------------------------

  /** The order's direction. */
  datatype Kind = Sell | Buy

  function KindName(k: Kind): string
  {
    match k
    case Sell => "sell"
    case Buy => "buy"
  }

  function KindFromName(s: string): Option<Kind>
  {
    if s == "sell" then Some(Sell) else if s == "buy" then Some(Buy) else None
  }

  lemma KindNames(k: Kind, s: string)
    ensures KindFromName(KindName(k)) == Some(k)
    ensures KindFromName(s) == Some(k) <==> s == KindName(k)
  {
  }

  /** Where a just-in-time order's sell amount is drawn from. */
  datatype SellTokenBalance = Erc20 | Internal | External

  function SellTokenBalanceName(b: SellTokenBalance): string
  {
    match b
    case Erc20 => "erc20"
    case Internal => "internal"
    case External => "external"
  }

  function SellTokenBalanceFromName(s: string): Option<SellTokenBalance>
  {
    if s == "erc20" then Some(SellTokenBalance.Erc20)
    else if s == "internal" then Some(SellTokenBalance.Internal)
    else if s == "external" then Some(External)
    else None
  }

  lemma SellTokenBalanceNames(b: SellTokenBalance, s: string)
    ensures SellTokenBalanceFromName(SellTokenBalanceName(b)) == Some(b)
    ensures SellTokenBalanceFromName(s) == Some(b) <==> s == SellTokenBalanceName(b)
  {
  }

  /** Where a just-in-time order's buy amount is paid to. */
  datatype BuyTokenBalance = Erc20 | Internal

  function BuyTokenBalanceName(b: BuyTokenBalance): string
  {
    match b
    case Erc20 => "erc20"
    case Internal => "internal"
  }

  function BuyTokenBalanceFromName(s: string): Option<BuyTokenBalance>
  {
    if s == "erc20" then Some(BuyTokenBalance.Erc20)
    else if s == "internal" then Some(BuyTokenBalance.Internal)
    else None
  }

  lemma BuyTokenBalanceNames(b: BuyTokenBalance, s: string)
    ensures BuyTokenBalanceFromName(BuyTokenBalanceName(b)) == Some(b)
    ensures BuyTokenBalanceFromName(s) == Some(b) <==> s == BuyTokenBalanceName(b)
  {
  }

  /**
   * The #[default] variants. They are what Default::default() builds; a
   * JitOrder read from the wire gets no default for either field.
   */
  function DefaultSellTokenBalance(): (b: SellTokenBalance)
    ensures SellTokenBalanceName(b) == "erc20"
  {
    SellTokenBalance.Erc20
  }

  function DefaultBuyTokenBalance(): (b: BuyTokenBalance)
    ensures BuyTokenBalanceName(b) == "erc20"
  {
    BuyTokenBalance.Erc20
  }

  /** The signature scheme, named in camelCase in a solution. */
  datatype SigningScheme = Eip712 | EthSign | PreSign | Eip1271

  function SigningSchemeName(s: SigningScheme): string
  {
    match s
    case Eip712 => "eip712"
    case EthSign => "ethSign"
    case PreSign => "preSign"
    case Eip1271 => "eip1271"
  }

  function SigningSchemeFromName(s: string): Option<SigningScheme>
  {
    if s == "eip712" then Some(Eip712)
    else if s == "ethSign" then Some(EthSign)
    else if s == "preSign" then Some(PreSign)
    else if s == "eip1271" then Some(Eip1271)
    else None
  }

  lemma SigningSchemeNames(scheme: SigningScheme, s: string)
    ensures SigningSchemeFromName(SigningSchemeName(scheme)) == Some(scheme)
    ensures SigningSchemeFromName(s) == Some(scheme) <==> s == SigningSchemeName(scheme)
  {
  }

  function EncodeKind(k: Kind): Json { Str(KindName(k)) }
  function DecodeKind(j: Json): Decoded<Kind> { DecodeName(j, KindFromName) }

  function EncodeSellTokenBalance(b: SellTokenBalance): Json { Str(SellTokenBalanceName(b)) }
  function DecodeSellTokenBalance(j: Json): Decoded<SellTokenBalance> { DecodeName(j, SellTokenBalanceFromName) }

  function EncodeBuyTokenBalance(b: BuyTokenBalance): Json { Str(BuyTokenBalanceName(b)) }
  function DecodeBuyTokenBalance(j: Json): Decoded<BuyTokenBalance> { DecodeName(j, BuyTokenBalanceFromName) }

  function EncodeSigningScheme(s: SigningScheme): Json { Str(SigningSchemeName(s)) }
  function DecodeSigningScheme(j: Json): Decoded<SigningScheme> { DecodeName(j, SigningSchemeFromName) }

  lemma UnitEnumsRoundTrip(k: Kind, sb: SellTokenBalance, bb: BuyTokenBalance, s: SigningScheme)
    ensures DecodeKind(EncodeKind(k)) == Ok(k)
    ensures DecodeSellTokenBalance(EncodeSellTokenBalance(sb)) == Ok(sb)
    ensures DecodeBuyTokenBalance(EncodeBuyTokenBalance(bb)) == Ok(bb)
    ensures DecodeSigningScheme(EncodeSigningScheme(s)) == Ok(s)
  {
    KindNames(k, "");
    SellTokenBalanceNames(sb, "");
    BuyTokenBalanceNames(bb, "");
    SigningSchemeNames(s, "");
  }

  // ---------------------------------------------------------------------
  // Entities
  // ---------------------------------------------------------------------

  datatype Solutions = Solutions(solutions: seq<Solution>)

  datatype Solution = Solution(
    id: U64,
    prices: map<Address, U256>,
    trades: seq<Trade>,
    preInteractions: seq<Call>,
    interactions: seq<Interaction>,
    postInteractions: seq<Call>,
    gas: Option<U64>)

  /** Internally tagged by "kind". */
  datatype Trade =
    | Fulfillment(fulfillment: Fulfillment)
    | Jit(jit: JitTrade)

  /** A trade against an auction order, named by its 56-byte uid. */
  datatype Fulfillment = Fulfillment(order: Bytes56, executedAmount: U256, fee: Option<U256>)

  datatype JitTrade = JitTrade(order: JitOrder, executedAmount: U256, fee: Option<U256>)

  datatype JitOrder = JitOrder(
    sellToken: Address,
    buyToken: Address,
    receiver: Address,
    sellAmount: U256,
    buyAmount: U256,
    validTo: U32,
    appData: B256,
    kind: Kind,
    sellTokenBalance: SellTokenBalance,
    buyTokenBalance: BuyTokenBalance,
    signingScheme: SigningScheme,
    signature: seq<Byte>)

  /** Internally tagged by "kind". */
  datatype Interaction =
    | Liquidity(liquidity: LiquidityInteraction)
    | Custom(custom: CustomInteraction)

  /** A struct that writes its own name under "kind" in front of its fields. */
  datatype Call = Call(target: Address, value: U256, calldata: seq<Byte>)

  datatype LiquidityInteraction = LiquidityInteraction(
    internalize: bool,
    id: string,
    inputToken: Address,
    outputToken: Address,
    inputAmount: U256,
    outputAmount: U256)

  datatype CustomInteraction = CustomInteraction(
    internalize: bool,
    target: Address,
    value: U256,
    calldata: seq<Byte>,
    allowances: seq<Allowance>,
    inputs: seq<Asset>,
    outputs: seq<Asset>)

  datatype OrderInteraction = OrderInteraction(target: Address, value: U256, calldata: seq<Byte>)

  datatype Asset = Asset(token: Address, amount: U256)

  datatype Allowance = Allowance(token: Address, spender: Address, amount: U256)

  // ---------------------------------------------------------------------
  // Small structs
  // ---------------------------------------------------------------------

  function EncodeAsset(a: Asset): Json
  {
    Obj(map["token" := EncodeAddress(a.token), "amount" := EncodeU256(a.amount)])
  }

  function DecodeAsset(j: Json): Decoded<Asset>
  {
    var m :- DecodeObject(j);
    var token :- Field(m, "token", DecodeAddress);
    var amount :- Field(m, "amount", DecodeU256);
    Ok(Asset(token, amount))
  }

  lemma AssetRoundTrip(a: Asset)
    ensures DecodeAsset(EncodeAsset(a)) == Ok(a)
  {
    AddressRoundTrip(a.token);
  }

  function EncodeAllowance(a: Allowance): Json
  {
    Obj(map["token" := EncodeAddress(a.token), "spender" := EncodeAddress(a.spender), "amount" := EncodeU256(a.amount)])
  }

  function DecodeAllowance(j: Json): Decoded<Allowance>
  {
    var m :- DecodeObject(j);
    var token :- Field(m, "token", DecodeAddress);
    var spender :- Field(m, "spender", DecodeAddress);
    var amount :- Field(m, "amount", DecodeU256);
    Ok(Allowance(token, spender, amount))
  }

  lemma AllowanceRoundTrip(a: Allowance)
    ensures DecodeAllowance(EncodeAllowance(a)) == Ok(a)
  {
    AddressRoundTrip(a.token);
    AddressRoundTrip(a.spender);
  }

  /** The Rust field `calldata` travels under the renamed key "callData". */
  function EncodeOrderInteraction(i: OrderInteraction): Json
  {
    Obj(map["target" := EncodeAddress(i.target), "value" := EncodeU256(i.value), "callData" := EncodeBytes(i.calldata)])
  }

  function DecodeOrderInteraction(j: Json): Decoded<OrderInteraction>
  {
    var m :- DecodeObject(j);
    var target :- Field(m, "target", DecodeAddress);
    var value :- Field(m, "value", DecodeU256);
    var calldata :- Field(m, "callData", DecodeBytes);
    Ok(OrderInteraction(target, value, calldata))
  }

  lemma OrderInteractionRoundTrip(i: OrderInteraction)
    ensures DecodeOrderInteraction(EncodeOrderInteraction(i)) == Ok(i)
  {
    AddressRoundTrip(i.target);
    BytesRoundTrip(i.calldata);
  }

  // ---------------------------------------------------------------------
  // Call: a struct carrying its own "kind" tag
  // ---------------------------------------------------------------------

  /**
   * #[serde(tag = "kind")] on a struct writes the struct's name under "kind"
   * before its fields; rename_all renames only the fields, so the tag is
   * "Call". Reading ignores the tag like any other unknown key.
   */
  function EncodeCall(c: Call): Json
  {
    TagObject("kind", "Call", map["target" := EncodeAddress(c.target), "value" := EncodeU256(c.value), "callData" := EncodeBytes(c.calldata)])
  }

  function DecodeCall(j: Json): Decoded<Call>
  {
    var m :- DecodeObject(j);
    var target :- Field(m, "target", DecodeAddress);
    var value :- Field(m, "value", DecodeU256);
    var calldata :- Field(m, "callData", DecodeBytes);
    Ok(Call(target, value, calldata))
  }

  lemma CallRoundTrip(c: Call)
    ensures DecodeCall(EncodeCall(c)) == Ok(c)
  {
    AddressRoundTrip(c.target);
    BytesRoundTrip(c.calldata);
  }

  /** An encoded call has exactly the keys kind, target, value and callData; the tag is "Call". */
  lemma CallShape(c: Call)
    ensures var m := EncodeCall(c).fields;
      m.Keys == {"kind", "target", "value", "callData"} && m["kind"] == Str("Call") &&
      m["callData"] == EncodeBytes(c.calldata)
  {
  }

  /** The tag is not needed to read a call back. */
  lemma CallIgnoresTag(c: Call)
    ensures DecodeCall(Obj(EncodeCall(c).fields - {"kind"})) == Ok(c)
  {
    AddressRoundTrip(c.target);
    BytesRoundTrip(c.calldata);
  }

  function EncodeCalls(xs: seq<Call>): Json
  {
    EncodeSeq(xs, EncodeCall)
  }

  function DecodeCalls(j: Json): Decoded<seq<Call>>
  {
    DecodeSeq(j, DecodeCall)
  }

  lemma CallsRoundTrip(xs: seq<Call>)
    ensures DecodeCalls(EncodeCalls(xs)) == Ok(xs)
  {
    forall c ensures DecodeCall(EncodeCall(c)) == Ok(c) { CallRoundTrip(c); }
    SeqRoundTrip(xs, EncodeCall, DecodeCall);
  }

  // ---------------------------------------------------------------------
  // Interactions
  // ---------------------------------------------------------------------

  /** The object a liquidity interaction is written as, one entry per field under its wire name. */
  function LiquidityInteractionObject(internalize: Json, id: Json, inputToken: Json,
      outputToken: Json, inputAmount: Json, outputAmount: Json): map<string, Json>
  {
    map[
      "internalize" := internalize,
      "id" := id,
      "inputToken" := inputToken,
      "outputToken" := outputToken,
      "inputAmount" := inputAmount,
      "outputAmount" := outputAmount]
  }

  lemma LiquidityInteractionObjectKeysA(internalize: Json, id: Json, inputToken: Json,
      outputToken: Json, inputAmount: Json, outputAmount: Json)
    ensures var m := LiquidityInteractionObject(internalize, id, inputToken, outputToken,
        inputAmount, outputAmount);
      "internalize" in m && m["internalize"] == internalize &&
      "id" in m && m["id"] == id &&
      "inputToken" in m && m["inputToken"] == inputToken
  {
  }

  lemma LiquidityInteractionObjectKeysB(internalize: Json, id: Json, inputToken: Json,
      outputToken: Json, inputAmount: Json, outputAmount: Json)
    ensures var m := LiquidityInteractionObject(internalize, id, inputToken, outputToken,
        inputAmount, outputAmount);
      "outputToken" in m && m["outputToken"] == outputToken &&
      "inputAmount" in m && m["inputAmount"] == inputAmount &&
      "outputAmount" in m && m["outputAmount"] == outputAmount
  {
  }

  lemma LiquidityInteractionObjectKeysC(internalize: Json, id: Json, inputToken: Json,
      outputToken: Json, inputAmount: Json, outputAmount: Json)
    ensures var m := LiquidityInteractionObject(internalize, id, inputToken, outputToken,
        inputAmount, outputAmount);
      "kind" !in m
  {
  }

  lemma LiquidityInteractionObjectKeys(internalize: Json, id: Json, inputToken: Json,
      outputToken: Json, inputAmount: Json, outputAmount: Json)
    ensures var m := LiquidityInteractionObject(internalize, id, inputToken, outputToken,
        inputAmount, outputAmount);
      "internalize" in m && m["internalize"] == internalize &&
      "id" in m && m["id"] == id &&
      "inputToken" in m && m["inputToken"] == inputToken &&
      "outputToken" in m && m["outputToken"] == outputToken &&
      "inputAmount" in m && m["inputAmount"] == inputAmount &&
      "outputAmount" in m && m["outputAmount"] == outputAmount &&
      "kind" !in m
  {
    LiquidityInteractionObjectKeysA(internalize, id, inputToken, outputToken, inputAmount, outputAmount);
    LiquidityInteractionObjectKeysB(internalize, id, inputToken, outputToken, inputAmount, outputAmount);
    LiquidityInteractionObjectKeysC(internalize, id, inputToken, outputToken, inputAmount, outputAmount);
  }

  function EncodeLiquidityInteraction(i: LiquidityInteraction): Json
  {
    Obj(LiquidityInteractionObject(
      Bool(i.internalize),
      Str(i.id),
      EncodeAddress(i.inputToken),
      EncodeAddress(i.outputToken),
      EncodeU256(i.inputAmount),
      EncodeU256(i.outputAmount)))
  }

  lemma LiquidityInteractionKeys(i: LiquidityInteraction)
    ensures var m := EncodeLiquidityInteraction(i).fields;
      "internalize" in m && m["internalize"] == Bool(i.internalize) &&
      "id" in m && m["id"] == Str(i.id) &&
      "inputToken" in m && m["inputToken"] == EncodeAddress(i.inputToken) &&
      "outputToken" in m && m["outputToken"] == EncodeAddress(i.outputToken) &&
      "inputAmount" in m && m["inputAmount"] == EncodeU256(i.inputAmount) &&
      "outputAmount" in m && m["outputAmount"] == EncodeU256(i.outputAmount) &&
      "kind" !in m
  {
    LiquidityInteractionObjectKeys(Bool(i.internalize), Str(i.id), EncodeAddress(i.inputToken),
      EncodeAddress(i.outputToken), EncodeU256(i.inputAmount), EncodeU256(i.outputAmount));
  }

  function DecodeLiquidityInteraction(j: Json): Decoded<LiquidityInteraction>
  {
    var m :- DecodeObject(j);
    var internalize :- Field(m, "internalize", DecodeBool);
    var id :- Field(m, "id", DecodeString);
    var inputToken :- Field(m, "inputToken", DecodeAddress);
    var outputToken :- Field(m, "outputToken", DecodeAddress);
    var inputAmount :- Field(m, "inputAmount", DecodeU256);
    var outputAmount :- Field(m, "outputAmount", DecodeU256);
    Ok(LiquidityInteraction(internalize, id, inputToken, outputToken, inputAmount, outputAmount))
  }

  lemma LiquidityInteractionRoundTrip(i: LiquidityInteraction)
    ensures DecodeLiquidityInteraction(EncodeLiquidityInteraction(i)) == Ok(i)
  {
    LiquidityInteractionKeys(i);
    AddressRoundTrip(i.inputToken);
    AddressRoundTrip(i.outputToken);
  }

  function EncodeAllowances(xs: seq<Allowance>): Json
  {
    EncodeSeq(xs, EncodeAllowance)
  }

  function DecodeAllowances(j: Json): Decoded<seq<Allowance>>
  {
    DecodeSeq(j, DecodeAllowance)
  }

  lemma AllowancesRoundTrip(xs: seq<Allowance>)
    ensures DecodeAllowances(EncodeAllowances(xs)) == Ok(xs)
  {
    forall a ensures DecodeAllowance(EncodeAllowance(a)) == Ok(a) { AllowanceRoundTrip(a); }
    SeqRoundTrip(xs, EncodeAllowance, DecodeAllowance);
  }

  function EncodeAssets(xs: seq<Asset>): Json
  {
    EncodeSeq(xs, EncodeAsset)
  }

  function DecodeAssets(j: Json): Decoded<seq<Asset>>
  {
    DecodeSeq(j, DecodeAsset)
  }

  lemma AssetsRoundTrip(xs: seq<Asset>)
    ensures DecodeAssets(EncodeAssets(xs)) == Ok(xs)
  {
    forall a ensures DecodeAsset(EncodeAsset(a)) == Ok(a) { AssetRoundTrip(a); }
    SeqRoundTrip(xs, EncodeAsset, DecodeAsset);
  }

  /** The object a custom interaction is written as; the Rust field calldata is under "callData". */
  function CustomInteractionObject(internalize: Json, target: Json, value: Json, callData: Json,
      allowances: Json, inputs: Json, outputs: Json): map<string, Json>
  {
    map[
      "internalize" := internalize,
      "target" := target,
      "value" := value,
      "callData" := callData,
      "allowances" := allowances,
      "inputs" := inputs,
      "outputs" := outputs]
  }

  lemma CustomInteractionObjectKeysA(internalize: Json, target: Json, value: Json, callData: Json,
      allowances: Json, inputs: Json, outputs: Json)
    ensures var m := CustomInteractionObject(internalize, target, value, callData, allowances,
        inputs, outputs);
      "internalize" in m && m["internalize"] == internalize &&
      "target" in m && m["target"] == target &&
      "value" in m && m["value"] == value
  {
  }

  lemma CustomInteractionObjectKeysB(internalize: Json, target: Json, value: Json, callData: Json,
      allowances: Json, inputs: Json, outputs: Json)
    ensures var m := CustomInteractionObject(internalize, target, value, callData, allowances,
        inputs, outputs);
      "callData" in m && m["callData"] == callData &&
      "allowances" in m && m["allowances"] == allowances &&
      "inputs" in m && m["inputs"] == inputs
  {
  }

  lemma CustomInteractionObjectKeysC(internalize: Json, target: Json, value: Json, callData: Json,
      allowances: Json, inputs: Json, outputs: Json)
    ensures var m := CustomInteractionObject(internalize, target, value, callData, allowances,
        inputs, outputs);
      "outputs" in m && m["outputs"] == outputs
  {
  }

  lemma CustomInteractionObjectKeysD(internalize: Json, target: Json, value: Json, callData: Json,
      allowances: Json, inputs: Json, outputs: Json)
    ensures var m := CustomInteractionObject(internalize, target, value, callData, allowances,
        inputs, outputs);
      "kind" !in m
  {
  }

  lemma CustomInteractionObjectKeys(internalize: Json, target: Json, value: Json, callData: Json,
      allowances: Json, inputs: Json, outputs: Json)
    ensures var m := CustomInteractionObject(internalize, target, value, callData, allowances,
        inputs, outputs);
      "internalize" in m && m["internalize"] == internalize &&
      "target" in m && m["target"] == target &&
      "value" in m && m["value"] == value &&
      "callData" in m && m["callData"] == callData &&
      "allowances" in m && m["allowances"] == allowances &&
      "inputs" in m && m["inputs"] == inputs &&
      "outputs" in m && m["outputs"] == outputs &&
      "kind" !in m
  {
    CustomInteractionObjectKeysA(internalize, target, value, callData, allowances, inputs, outputs);
    CustomInteractionObjectKeysB(internalize, target, value, callData, allowances, inputs, outputs);
    CustomInteractionObjectKeysC(internalize, target, value, callData, allowances, inputs, outputs);
    CustomInteractionObjectKeysD(internalize, target, value, callData, allowances, inputs, outputs);
  }

  function EncodeCustomInteraction(i: CustomInteraction): Json
  {
    Obj(CustomInteractionObject(
      Bool(i.internalize),
      EncodeAddress(i.target),
      EncodeU256(i.value),
      EncodeBytes(i.calldata),
      EncodeAllowances(i.allowances),
      EncodeAssets(i.inputs),
      EncodeAssets(i.outputs)))
  }

  lemma CustomInteractionKeys(i: CustomInteraction)
    ensures var m := EncodeCustomInteraction(i).fields;
      "internalize" in m && m["internalize"] == Bool(i.internalize) &&
      "target" in m && m["target"] == EncodeAddress(i.target) &&
      "value" in m && m["value"] == EncodeU256(i.value) &&
      "callData" in m && m["callData"] == EncodeBytes(i.calldata) &&
      "allowances" in m && m["allowances"] == EncodeAllowances(i.allowances) &&
      "inputs" in m && m["inputs"] == EncodeAssets(i.inputs) &&
      "outputs" in m && m["outputs"] == EncodeAssets(i.outputs) &&
      "kind" !in m
  {
    CustomInteractionObjectKeys(Bool(i.internalize), EncodeAddress(i.target), EncodeU256(i.value),
      EncodeBytes(i.calldata), EncodeAllowances(i.allowances), EncodeAssets(i.inputs),
      EncodeAssets(i.outputs));
  }

  function DecodeCustomInteraction(j: Json): Decoded<CustomInteraction>
  {
    var m :- DecodeObject(j);
    var internalize :- Field(m, "internalize", DecodeBool);
    var target :- Field(m, "target", DecodeAddress);
    var value :- Field(m, "value", DecodeU256);
    var calldata :- Field(m, "callData", DecodeBytes);
    var allowances :- Field(m, "allowances", DecodeAllowances);
    var inputs :- Field(m, "inputs", DecodeAssets);
    var outputs :- Field(m, "outputs", DecodeAssets);
    Ok(CustomInteraction(internalize, target, value, calldata, allowances, inputs, outputs))
  }

  /** The lists of an encoded custom interaction read back as written. */
  lemma CustomInteractionListFields(i: CustomInteraction)
    ensures var m := EncodeCustomInteraction(i).fields;
      Field(m, "allowances", DecodeAllowances) == Ok(i.allowances) &&
      Field(m, "inputs", DecodeAssets) == Ok(i.inputs) &&
      Field(m, "outputs", DecodeAssets) == Ok(i.outputs)
  {
    CustomInteractionKeys(i);
    AllowancesRoundTrip(i.allowances);
    AssetsRoundTrip(i.inputs);
    AssetsRoundTrip(i.outputs);
  }

  /** The call itself reads back as written, its data from "callData". */
  lemma CustomInteractionCallFields(i: CustomInteraction)
    ensures var m := EncodeCustomInteraction(i).fields;
      Field(m, "internalize", DecodeBool) == Ok(i.internalize) &&
      Field(m, "target", DecodeAddress) == Ok(i.target) &&
      Field(m, "value", DecodeU256) == Ok(i.value) &&
      Field(m, "callData", DecodeBytes) == Ok(i.calldata)
  {
    CustomInteractionKeys(i);
    AddressRoundTrip(i.target);
    BytesRoundTrip(i.calldata);
  }

  lemma CustomInteractionRoundTrip(i: CustomInteraction)
    ensures DecodeCustomInteraction(EncodeCustomInteraction(i)) == Ok(i)
  {
    CustomInteractionListFields(i);
    CustomInteractionCallFields(i);
  }

  /** The camelCase tag of each interaction variant. */
  function InteractionKind(i: Interaction): string
  {
    match i
    case Liquidity(_) => "liquidity"
    case Custom(_) => "custom"
  }

  function InteractionPayload(i: Interaction): map<string, Json>
  {
    match i
    case Liquidity(x) => EncodeLiquidityInteraction(x).fields
    case Custom(x) => EncodeCustomInteraction(x).fields
  }

  function EncodeInteraction(i: Interaction): Json
  {
    TagObject("kind", InteractionKind(i), InteractionPayload(i))
  }

  function DecodeInteractionVariant(kind: string, j: Json): (r: Decoded<Interaction>)
    ensures r.Ok? ==> InteractionKind(r.value) == kind
  {
    if kind == "liquidity" then
      var x :- DecodeLiquidityInteraction(j); Ok(Liquidity(x))
    else if kind == "custom" then
      var x :- DecodeCustomInteraction(j); Ok(Custom(x))
    else Err(UnknownVariant(kind))
  }

  function DecodeInteraction(j: Json): Decoded<Interaction>
  {
    DecodeTagged(j, "kind", DecodeInteractionVariant)
  }

  lemma InteractionPayloadUntagged(i: Interaction)
    ensures "kind" !in InteractionPayload(i)
  {
    match i
    case Liquidity(x) => LiquidityInteractionKeys(x);
    case Custom(x) => CustomInteractionKeys(x);
  }

  lemma InteractionRoundTrip(i: Interaction)
    ensures DecodeInteraction(EncodeInteraction(i)) == Ok(i)
  {
    InteractionPayloadUntagged(i);
    TaggedRoundTrip("kind", InteractionKind(i), InteractionPayload(i), DecodeInteractionVariant);
    match i
    case Liquidity(x) => LiquidityInteractionRoundTrip(x);
    case Custom(x) => CustomInteractionRoundTrip(x);
  }

  /** A tag other than "liquidity" or "custom" is refused. */
  lemma InteractionRefusesUnknownKind(m: map<string, Json>, kind: string)
    requires "kind" in m && m["kind"] == Str(kind)
    requires kind != "liquidity" && kind != "custom"
    ensures DecodeInteraction(Obj(m)) == Err(UnknownVariant(kind))
  {
  }

  function EncodeInteractions(xs: seq<Interaction>): Json
  {
    EncodeSeq(xs, EncodeInteraction)
  }

  function DecodeInteractions(j: Json): Decoded<seq<Interaction>>
  {
    DecodeSeq(j, DecodeInteraction)
  }

  lemma InteractionsRoundTrip(xs: seq<Interaction>)
    ensures DecodeInteractions(EncodeInteractions(xs)) == Ok(xs)
  {
    forall i ensures DecodeInteraction(EncodeInteraction(i)) == Ok(i) { InteractionRoundTrip(i); }
    SeqRoundTrip(xs, EncodeInteraction, DecodeInteraction);
  }

  // ---------------------------------------------------------------------
  // Trades
  // ---------------------------------------------------------------------

  /** The fee is left out entirely when None (skip_serializing_if). */
  function EncodeFulfillment(f: Fulfillment): Json
  {
    Obj(PutIfSome(map["order" := EncodeBytes(f.order), "executedAmount" := EncodeU256(f.executedAmount)], "fee", f.fee, EncodeU256))
  }

  function DecodeFulfillment(j: Json): Decoded<Fulfillment>
  {
    var m :- DecodeObject(j);
    var order :- Field(m, "order", DecodeBytes56);
    var executedAmount :- Field(m, "executedAmount", DecodeU256);
    var fee :- OptionField(m, "fee", DecodeU256);
    Ok(Fulfillment.Fulfillment(order, executedAmount, fee))
  }

  lemma FulfillmentRoundTrip(f: Fulfillment)
    ensures DecodeFulfillment(EncodeFulfillment(f)) == Ok(f)
  {
    Bytes56RoundTrip(f.order);
    PutIfSomeRoundTrip(map["order" := EncodeBytes(f.order), "executedAmount" := EncodeU256(f.executedAmount)], "fee", f.fee, EncodeU256, DecodeU256);
  }

  /** A fulfillment has a "fee" key exactly when it has a fee. */
  lemma FulfillmentFeeOmitted(f: Fulfillment)
    ensures "fee" in EncodeFulfillment(f).fields <==> f.fee.Some?
  {
  }

  /** The object a just-in-time order is written as, one entry per field under its wire name. */
  function JitOrderObject(sellToken: Json, buyToken: Json, receiver: Json, sellAmount: Json,
      buyAmount: Json, validTo: Json, appData: Json, kind: Json, sellTokenBalance: Json,
      buyTokenBalance: Json, signingScheme: Json, signature: Json): map<string, Json>
  {
    map[
      "sellToken" := sellToken,
      "buyToken" := buyToken,
      "receiver" := receiver,
      "sellAmount" := sellAmount,
      "buyAmount" := buyAmount,
      "validTo" := validTo,
      "appData" := appData,
      "kind" := kind,
      "sellTokenBalance" := sellTokenBalance,
      "buyTokenBalance" := buyTokenBalance,
      "signingScheme" := signingScheme,
      "signature" := signature]
  }

  /** The entries of the order object read back, a few keys per lemma to keep each proof small. */
  lemma JitOrderObjectKeysA(sellToken: Json, buyToken: Json, receiver: Json, sellAmount: Json,
      buyAmount: Json, validTo: Json, appData: Json, kind: Json, sellTokenBalance: Json,
      buyTokenBalance: Json, signingScheme: Json, signature: Json)
    ensures var m := JitOrderObject(sellToken, buyToken, receiver, sellAmount, buyAmount, validTo,
        appData, kind, sellTokenBalance, buyTokenBalance, signingScheme, signature);
      "sellToken" in m && m["sellToken"] == sellToken &&
      "buyToken" in m && m["buyToken"] == buyToken &&
      "receiver" in m && m["receiver"] == receiver
  {
  }

  lemma JitOrderObjectKeysB(sellToken: Json, buyToken: Json, receiver: Json, sellAmount: Json,
      buyAmount: Json, validTo: Json, appData: Json, kind: Json, sellTokenBalance: Json,
      buyTokenBalance: Json, signingScheme: Json, signature: Json)
    ensures var m := JitOrderObject(sellToken, buyToken, receiver, sellAmount, buyAmount, validTo,
        appData, kind, sellTokenBalance, buyTokenBalance, signingScheme, signature);
      "sellAmount" in m && m["sellAmount"] == sellAmount &&
      "buyAmount" in m && m["buyAmount"] == buyAmount &&
      "validTo" in m && m["validTo"] == validTo
  {
  }

  lemma JitOrderObjectKeysC(sellToken: Json, buyToken: Json, receiver: Json, sellAmount: Json,
      buyAmount: Json, validTo: Json, appData: Json, kind: Json, sellTokenBalance: Json,
      buyTokenBalance: Json, signingScheme: Json, signature: Json)
    ensures var m := JitOrderObject(sellToken, buyToken, receiver, sellAmount, buyAmount, validTo,
        appData, kind, sellTokenBalance, buyTokenBalance, signingScheme, signature);
      "appData" in m && m["appData"] == appData &&
      "kind" in m && m["kind"] == kind &&
      "sellTokenBalance" in m && m["sellTokenBalance"] == sellTokenBalance
  {
  }

  lemma JitOrderObjectKeysD(sellToken: Json, buyToken: Json, receiver: Json, sellAmount: Json,
      buyAmount: Json, validTo: Json, appData: Json, kind: Json, sellTokenBalance: Json,
      buyTokenBalance: Json, signingScheme: Json, signature: Json)
    ensures var m := JitOrderObject(sellToken, buyToken, receiver, sellAmount, buyAmount, validTo,
        appData, kind, sellTokenBalance, buyTokenBalance, signingScheme, signature);
      "buyTokenBalance" in m && m["buyTokenBalance"] == buyTokenBalance &&
      "signingScheme" in m && m["signingScheme"] == signingScheme &&
      "signature" in m && m["signature"] == signature
  {
  }

  lemma JitOrderObjectKeys(sellToken: Json, buyToken: Json, receiver: Json, sellAmount: Json,
      buyAmount: Json, validTo: Json, appData: Json, kind: Json, sellTokenBalance: Json,
      buyTokenBalance: Json, signingScheme: Json, signature: Json)
    ensures var m := JitOrderObject(sellToken, buyToken, receiver, sellAmount, buyAmount, validTo,
        appData, kind, sellTokenBalance, buyTokenBalance, signingScheme, signature);
      "sellToken" in m && m["sellToken"] == sellToken &&
      "buyToken" in m && m["buyToken"] == buyToken &&
      "receiver" in m && m["receiver"] == receiver &&
      "sellAmount" in m && m["sellAmount"] == sellAmount &&
      "buyAmount" in m && m["buyAmount"] == buyAmount &&
      "validTo" in m && m["validTo"] == validTo &&
      "appData" in m && m["appData"] == appData &&
      "kind" in m && m["kind"] == kind &&
      "sellTokenBalance" in m && m["sellTokenBalance"] == sellTokenBalance &&
      "buyTokenBalance" in m && m["buyTokenBalance"] == buyTokenBalance &&
      "signingScheme" in m && m["signingScheme"] == signingScheme &&
      "signature" in m && m["signature"] == signature
  {
    JitOrderObjectKeysA(sellToken, buyToken, receiver, sellAmount, buyAmount, validTo, appData, kind, sellTokenBalance, buyTokenBalance, signingScheme, signature);
    JitOrderObjectKeysB(sellToken, buyToken, receiver, sellAmount, buyAmount, validTo, appData, kind, sellTokenBalance, buyTokenBalance, signingScheme, signature);
    JitOrderObjectKeysC(sellToken, buyToken, receiver, sellAmount, buyAmount, validTo, appData, kind, sellTokenBalance, buyTokenBalance, signingScheme, signature);
    JitOrderObjectKeysD(sellToken, buyToken, receiver, sellAmount, buyAmount, validTo, appData, kind, sellTokenBalance, buyTokenBalance, signingScheme, signature);
  }



  function EncodeJitOrder(o: JitOrder): Json
  {
    Obj(JitOrderObject(
      EncodeAddress(o.sellToken),
      EncodeAddress(o.buyToken),
      EncodeAddress(o.receiver),
      EncodeU256(o.sellAmount),
      EncodeU256(o.buyAmount),
      Num(o.validTo),
      EncodeB256(o.appData),
      EncodeKind(o.kind),
      EncodeSellTokenBalance(o.sellTokenBalance),
      EncodeBuyTokenBalance(o.buyTokenBalance),
      EncodeSigningScheme(o.signingScheme),
      EncodeBytes(o.signature)))
  }

  lemma JitOrderKeys(o: JitOrder)
    ensures var m := EncodeJitOrder(o).fields;
      "sellToken" in m && m["sellToken"] == EncodeAddress(o.sellToken) &&
      "buyToken" in m && m["buyToken"] == EncodeAddress(o.buyToken) &&
      "receiver" in m && m["receiver"] == EncodeAddress(o.receiver) &&
      "sellAmount" in m && m["sellAmount"] == EncodeU256(o.sellAmount) &&
      "buyAmount" in m && m["buyAmount"] == EncodeU256(o.buyAmount) &&
      "validTo" in m && m["validTo"] == Num(o.validTo) &&
      "appData" in m && m["appData"] == EncodeB256(o.appData) &&
      "kind" in m && m["kind"] == EncodeKind(o.kind) &&
      "sellTokenBalance" in m && m["sellTokenBalance"] == EncodeSellTokenBalance(o.sellTokenBalance) &&
      "buyTokenBalance" in m && m["buyTokenBalance"] == EncodeBuyTokenBalance(o.buyTokenBalance) &&
      "signingScheme" in m && m["signingScheme"] == EncodeSigningScheme(o.signingScheme) &&
      "signature" in m && m["signature"] == EncodeBytes(o.signature)
  {
    JitOrderObjectKeys(EncodeAddress(o.sellToken), EncodeAddress(o.buyToken),
      EncodeAddress(o.receiver), EncodeU256(o.sellAmount), EncodeU256(o.buyAmount), Num(o.validTo),
      EncodeB256(o.appData), EncodeKind(o.kind), EncodeSellTokenBalance(o.sellTokenBalance),
      EncodeBuyTokenBalance(o.buyTokenBalance), EncodeSigningScheme(o.signingScheme),
      EncodeBytes(o.signature));
  }

  function DecodeJitOrder(j: Json): Decoded<JitOrder>
  {
    var m :- DecodeObject(j);
    var sellToken :- Field(m, "sellToken", DecodeAddress);
    var buyToken :- Field(m, "buyToken", DecodeAddress);
    var receiver :- Field(m, "receiver", DecodeAddress);
    var sellAmount :- Field(m, "sellAmount", DecodeU256);
    var buyAmount :- Field(m, "buyAmount", DecodeU256);
    var validTo :- Field(m, "validTo", DecodeU32);
    var appData :- Field(m, "appData", DecodeB256);
    var kind :- Field(m, "kind", DecodeKind);
    var sellTokenBalance :- Field(m, "sellTokenBalance", DecodeSellTokenBalance);
    var buyTokenBalance :- Field(m, "buyTokenBalance", DecodeBuyTokenBalance);
    var signingScheme :- Field(m, "signingScheme", DecodeSigningScheme);
    var signature :- Field(m, "signature", DecodeBytes);
    Ok(JitOrder(sellToken, buyToken, receiver, sellAmount, buyAmount, validTo, appData, kind,
                sellTokenBalance, buyTokenBalance, signingScheme, signature))
  }

  /** The five address, hash and byte entries of an encoded order read back as written. */
  lemma JitOrderBytesFields(o: JitOrder)
    ensures var m := EncodeJitOrder(o).fields;
      Field(m, "sellToken", DecodeAddress) == Ok(o.sellToken) &&
      Field(m, "buyToken", DecodeAddress) == Ok(o.buyToken) &&
      Field(m, "receiver", DecodeAddress) == Ok(o.receiver) &&
      Field(m, "appData", DecodeB256) == Ok(o.appData) &&
      Field(m, "signature", DecodeBytes) == Ok(o.signature)
  {
    JitOrderKeys(o);
    AddressRoundTrip(o.sellToken);
    AddressRoundTrip(o.buyToken);
    AddressRoundTrip(o.receiver);
    B256RoundTrip(o.appData);
    BytesRoundTrip(o.signature);
  }

  /** The amounts, validTo and the four unit enums of an encoded order read back as written. */
  lemma JitOrderPlainFields(o: JitOrder)
    ensures var m := EncodeJitOrder(o).fields;
      Field(m, "sellAmount", DecodeU256) == Ok(o.sellAmount) &&
      Field(m, "buyAmount", DecodeU256) == Ok(o.buyAmount) &&
      Field(m, "validTo", DecodeU32) == Ok(o.validTo) &&
      Field(m, "kind", DecodeKind) == Ok(o.kind) &&
      Field(m, "sellTokenBalance", DecodeSellTokenBalance) == Ok(o.sellTokenBalance) &&
      Field(m, "buyTokenBalance", DecodeBuyTokenBalance) == Ok(o.buyTokenBalance) &&
      Field(m, "signingScheme", DecodeSigningScheme) == Ok(o.signingScheme)
  {
    JitOrderKeys(o);
    UnitEnumsRoundTrip(o.kind, o.sellTokenBalance, o.buyTokenBalance, o.signingScheme);
  }

  lemma JitOrderRoundTrip(o: JitOrder)
    ensures DecodeJitOrder(EncodeJitOrder(o)) == Ok(o)
  {
    JitOrderBytesFields(o);
    JitOrderPlainFields(o);
  }

  /**
   * Neither balance field has a serde default: an order whose object lacks
   * one of them is refused, even though Default::default() is Erc20.
   */
  lemma JitOrderRequiresBalances(m: map<string, Json>)
    requires "sellTokenBalance" !in m || "buyTokenBalance" !in m
    ensures DecodeJitOrder(Obj(m)).Err?
  {
  }

  /** The object a JIT trade is written as; the fee entry is there even when it is null. */
  function JitTradeObject(order: Json, executedAmount: Json, fee: Json): map<string, Json>
  {
    map[
      "order" := order,
      "executedAmount" := executedAmount,
      "fee" := fee]
  }

  lemma JitTradeObjectKeysA(order: Json, executedAmount: Json, fee: Json)
    ensures var m := JitTradeObject(order, executedAmount, fee);
      "order" in m && m["order"] == order &&
      "executedAmount" in m && m["executedAmount"] == executedAmount &&
      "fee" in m && m["fee"] == fee
  {
  }

  lemma JitTradeObjectKeysB(order: Json, executedAmount: Json, fee: Json)
    ensures var m := JitTradeObject(order, executedAmount, fee);
      "kind" !in m
  {
  }

  lemma JitTradeObjectKeys(order: Json, executedAmount: Json, fee: Json)
    ensures var m := JitTradeObject(order, executedAmount, fee);
      "order" in m && m["order"] == order &&
      "executedAmount" in m && m["executedAmount"] == executedAmount &&
      "fee" in m && m["fee"] == fee &&
      "kind" !in m
  {
    JitTradeObjectKeysA(order, executedAmount, fee);
    JitTradeObjectKeysB(order, executedAmount, fee);
  }

  function EncodeJitTrade(t: JitTrade): Json
  {
    Obj(JitTradeObject(
      EncodeJitOrder(t.order),
      EncodeU256(t.executedAmount),
      EncodeOption(t.fee, EncodeU256)))
  }

  lemma JitTradeKeys(t: JitTrade)
    ensures var m := EncodeJitTrade(t).fields;
      "order" in m && m["order"] == EncodeJitOrder(t.order) &&
      "executedAmount" in m && m["executedAmount"] == EncodeU256(t.executedAmount) &&
      "fee" in m && m["fee"] == EncodeOption(t.fee, EncodeU256) &&
      "kind" !in m
  {
    JitTradeObjectKeys(EncodeJitOrder(t.order), EncodeU256(t.executedAmount),
      EncodeOption(t.fee, EncodeU256));
  }

  function DecodeJitTrade(j: Json): Decoded<JitTrade>
  {
    var m :- DecodeObject(j);
    var order :- Field(m, "order", DecodeJitOrder);
    var executedAmount :- Field(m, "executedAmount", DecodeU256);
    var fee :- OptionField(m, "fee", DecodeU256);
    Ok(JitTrade(order, executedAmount, fee))
  }

  lemma JitTradeFromFields(m: map<string, Json>, t: JitTrade)
    requires Field(m, "order", DecodeJitOrder) == Ok(t.order)
    requires Field(m, "executedAmount", DecodeU256) == Ok(t.executedAmount)
    requires OptionField(m, "fee", DecodeU256) == Ok(t.fee)
    ensures DecodeJitTrade(Obj(m)) == Ok(t)
  {
  }

  lemma JitTradeOrderField(t: JitTrade)
    ensures Field(EncodeJitTrade(t).fields, "order", DecodeJitOrder) == Ok(t.order)
  {
    JitTradeKeys(t);
    JitOrderRoundTrip(t.order);
  }

  lemma JitTradeRoundTrip(t: JitTrade)
    ensures DecodeJitTrade(EncodeJitTrade(t)) == Ok(t)
  {
    JitTradeKeys(t);
    JitTradeOrderField(t);
    OptionRoundTrip(t.fee, EncodeU256, DecodeU256);
    JitTradeFromFields(EncodeJitTrade(t).fields, t);
  }

  /** Unlike a fulfillment's, a JIT trade's fee key is always present, holding null for None. */
  lemma JitTradeFeeWritten(t: JitTrade)
    ensures "fee" in EncodeJitTrade(t).fields
    ensures EncodeJitTrade(t).fields["fee"] == Null <==> t.fee.None?
  {
  }

  function TradeKind(t: Trade): string
  {
    match t
    case Fulfillment(_) => "fulfillment"
    case Jit(_) => "jit"
  }

  function TradePayload(t: Trade): map<string, Json>
  {
    match t
    case Fulfillment(f) => EncodeFulfillment(f).fields
    case Jit(x) => EncodeJitTrade(x).fields
  }

  function EncodeTrade(t: Trade): Json
  {
    TagObject("kind", TradeKind(t), TradePayload(t))
  }

  function DecodeTradeVariant(kind: string, j: Json): (r: Decoded<Trade>)
    ensures r.Ok? ==> TradeKind(r.value) == kind
  {
    if kind == "fulfillment" then
      var f :- DecodeFulfillment(j); Ok(Trade.Fulfillment(f))
    else if kind == "jit" then
      var x :- DecodeJitTrade(j); Ok(Jit(x))
    else Err(UnknownVariant(kind))
  }

  function DecodeTrade(j: Json): Decoded<Trade>
  {
    DecodeTagged(j, "kind", DecodeTradeVariant)
  }

  lemma TradePayloadUntagged(t: Trade)
    ensures "kind" !in TradePayload(t)
  {
  }

  lemma TradeRoundTrip(t: Trade)
    ensures DecodeTrade(EncodeTrade(t)) == Ok(t)
  {
    TradePayloadUntagged(t);
    TaggedRoundTrip("kind", TradeKind(t), TradePayload(t), DecodeTradeVariant);
    match t
    case Fulfillment(f) => FulfillmentRoundTrip(f);
    case Jit(x) => JitTradeRoundTrip(x);
  }

  /** A tag other than "fulfillment" or "jit" is refused. */
  lemma TradeRefusesUnknownKind(m: map<string, Json>, kind: string)
    requires "kind" in m && m["kind"] == Str(kind)
    requires kind != "fulfillment" && kind != "jit"
    ensures DecodeTrade(Obj(m)) == Err(UnknownVariant(kind))
  {
  }

  function EncodeTrades(xs: seq<Trade>): Json
  {
    EncodeSeq(xs, EncodeTrade)
  }

  function DecodeTrades(j: Json): Decoded<seq<Trade>>
  {
    DecodeSeq(j, DecodeTrade)
  }

  lemma TradesRoundTrip(xs: seq<Trade>)
    ensures DecodeTrades(EncodeTrades(xs)) == Ok(xs)
  {
    forall t ensures DecodeTrade(EncodeTrade(t)) == Ok(t) { TradeRoundTrip(t); }
    SeqRoundTrip(xs, EncodeTrade, DecodeTrade);
  }

  // ---------------------------------------------------------------------
  // Solution
  // ---------------------------------------------------------------------

  function EncodePrices(m: map<Address, U256>): Json
  {
    EncodeAddressMap(m, EncodeU256)
  }

  function DecodePrices(j: Json): Decoded<map<Address, U256>>
  {
    DecodeAddressMap(j, DecodeU256)
  }

  lemma PricesRoundTrip(m: map<Address, U256>)
    ensures DecodePrices(EncodePrices(m)) == Ok(m)
  {
    AddressMapRoundTrip(m, EncodeU256, DecodeU256);
  }

  /** The entries of an encoded solution other than the optional gas. */
  function SolutionObject(id: Json, prices: Json, trades: Json, preInteractions: Json, interactions: Json,
      postInteractions: Json): map<string, Json>
  {
    map[
      "id" := id,
      "prices" := prices,
      "trades" := trades,
      "preInteractions" := preInteractions,
      "interactions" := interactions,
      "postInteractions" := postInteractions]
  }

  lemma SolutionObjectKeysA(id: Json, prices: Json, trades: Json, preInteractions: Json, interactions: Json,
      postInteractions: Json)
    ensures var m := SolutionObject(id, prices, trades, preInteractions, interactions, postInteractions);
      "id" in m && m["id"] == id &&
      "prices" in m && m["prices"] == prices &&
      "trades" in m && m["trades"] == trades
  {
  }

  lemma SolutionObjectKeysB(id: Json, prices: Json, trades: Json, preInteractions: Json, interactions: Json,
      postInteractions: Json)
    ensures var m := SolutionObject(id, prices, trades, preInteractions, interactions, postInteractions);
      "preInteractions" in m && m["preInteractions"] == preInteractions &&
      "interactions" in m && m["interactions"] == interactions &&
      "postInteractions" in m && m["postInteractions"] == postInteractions
  {
  }

  lemma SolutionObjectKeysC(id: Json, prices: Json, trades: Json, preInteractions: Json, interactions: Json,
      postInteractions: Json)
    ensures var m := SolutionObject(id, prices, trades, preInteractions, interactions, postInteractions);
      "gas" !in m
  {
  }

  lemma SolutionObjectKeys(id: Json, prices: Json, trades: Json, preInteractions: Json, interactions: Json,
      postInteractions: Json)
    ensures var m := SolutionObject(id, prices, trades, preInteractions, interactions, postInteractions);
      "id" in m && m["id"] == id &&
      "prices" in m && m["prices"] == prices &&
      "trades" in m && m["trades"] == trades &&
      "preInteractions" in m && m["preInteractions"] == preInteractions &&
      "interactions" in m && m["interactions"] == interactions &&
      "postInteractions" in m && m["postInteractions"] == postInteractions &&
      "gas" !in m
  {
    SolutionObjectKeysA(id, prices, trades, preInteractions, interactions, postInteractions);
    SolutionObjectKeysB(id, prices, trades, preInteractions, interactions, postInteractions);
    SolutionObjectKeysC(id, prices, trades, preInteractions, interactions, postInteractions);
  }

  /** The gas entry is skipped when None. */
  function EncodeSolution(s: Solution): Json
  {
    Obj(PutIfSome(SolutionObject(
      Num(s.id),
      EncodePrices(s.prices),
      EncodeTrades(s.trades),
      EncodeCalls(s.preInteractions),
      EncodeInteractions(s.interactions),
      EncodeCalls(s.postInteractions)), "gas", s.gas, EncodeU64))
  }

  /** The pre- and post-interactions default to empty when absent; an absent gas is None. */
  function DecodeSolution(j: Json): Decoded<Solution>
  {
    var m :- DecodeObject(j);
    var id :- Field(m, "id", DecodeU64);
    var prices :- Field(m, "prices", DecodePrices);
    var trades :- Field(m, "trades", DecodeTrades);
    var preInteractions :- DefaultField(m, "preInteractions", DecodeCalls, []);
    var interactions :- Field(m, "interactions", DecodeInteractions);
    var postInteractions :- DefaultField(m, "postInteractions", DecodeCalls, []);
    var gas :- OptionField(m, "gas", DecodeU64);
    Ok(Solution(id, prices, trades, preInteractions, interactions, postInteractions, gas))
  }

  lemma SolutionKeys(s: Solution)
    ensures var m := EncodeSolution(s).fields;
      "id" in m && m["id"] == Num(s.id) &&
      "prices" in m && m["prices"] == EncodePrices(s.prices) &&
      "trades" in m && m["trades"] == EncodeTrades(s.trades) &&
      "preInteractions" in m && m["preInteractions"] == EncodeCalls(s.preInteractions) &&
      "interactions" in m && m["interactions"] == EncodeInteractions(s.interactions) &&
      "postInteractions" in m && m["postInteractions"] == EncodeCalls(s.postInteractions)
  {
    SolutionObjectKeys(Num(s.id), EncodePrices(s.prices), EncodeTrades(s.trades), EncodeCalls(s.preInteractions),
      EncodeInteractions(s.interactions), EncodeCalls(s.postInteractions));
  }

  /** The gas key is present exactly when there is gas, and reads back as written. */
  lemma SolutionGasOmitted(s: Solution)
    ensures "gas" in EncodeSolution(s).fields <==> s.gas.Some?
    ensures OptionField(EncodeSolution(s).fields, "gas", DecodeU64) == Ok(s.gas)
  {
    var base := SolutionObject(Num(s.id), EncodePrices(s.prices), EncodeTrades(s.trades), EncodeCalls(s.preInteractions),
      EncodeInteractions(s.interactions), EncodeCalls(s.postInteractions));
    SolutionObjectKeys(Num(s.id), EncodePrices(s.prices), EncodeTrades(s.trades), EncodeCalls(s.preInteractions),
      EncodeInteractions(s.interactions), EncodeCalls(s.postInteractions));
    PutIfSomeRoundTrip(base, "gas", s.gas, EncodeU64, DecodeU64);
  }

  /** The collections of an encoded solution read back as written. */
  lemma SolutionCollectionFields(s: Solution)
    ensures var m := EncodeSolution(s).fields;
      Field(m, "prices", DecodePrices) == Ok(s.prices) &&
      Field(m, "trades", DecodeTrades) == Ok(s.trades) &&
      DefaultField(m, "preInteractions", DecodeCalls, []) == Ok(s.preInteractions) &&
      Field(m, "interactions", DecodeInteractions) == Ok(s.interactions) &&
      DefaultField(m, "postInteractions", DecodeCalls, []) == Ok(s.postInteractions)
  {
    SolutionKeys(s);
    PricesRoundTrip(s.prices);
    TradesRoundTrip(s.trades);
    CallsRoundTrip(s.preInteractions);
    InteractionsRoundTrip(s.interactions);
    CallsRoundTrip(s.postInteractions);
  }

  lemma SolutionIdField(s: Solution)
    ensures Field(EncodeSolution(s).fields, "id", DecodeU64) == Ok(s.id)
  {
    SolutionKeys(s);
  }

  /** An object whose entries each read as the matching field of `s` reads as `s`. */
  lemma SolutionFromFields(m: map<string, Json>, s: Solution)
    requires Field(m, "id", DecodeU64) == Ok(s.id)
    requires Field(m, "prices", DecodePrices) == Ok(s.prices)
    requires Field(m, "trades", DecodeTrades) == Ok(s.trades)
    requires DefaultField(m, "preInteractions", DecodeCalls, []) == Ok(s.preInteractions)
    requires Field(m, "interactions", DecodeInteractions) == Ok(s.interactions)
    requires DefaultField(m, "postInteractions", DecodeCalls, []) == Ok(s.postInteractions)
    requires OptionField(m, "gas", DecodeU64) == Ok(s.gas)
    ensures DecodeSolution(Obj(m)) == Ok(s)
  {
  }

  lemma SolutionRoundTrip(s: Solution)
    ensures DecodeSolution(EncodeSolution(s)) == Ok(s)
  {
    SolutionIdField(s);
    SolutionGasOmitted(s);
    SolutionCollectionFields(s);
    SolutionFromFields(EncodeSolution(s).fields, s);
  }

  /** Whatever a solution without "preInteractions" or "postInteractions" reads as has empty ones there. */
  lemma SolutionInteractionsDefault(m: map<string, Json>)
    ensures DecodeSolution(Obj(m)).Ok? && "preInteractions" !in m ==> DecodeSolution(Obj(m)).value.preInteractions == []
    ensures DecodeSolution(Obj(m)).Ok? && "postInteractions" !in m ==> DecodeSolution(Obj(m)).value.postInteractions == []
  {
  }

  /** Whatever a solution without "gas" reads as has no gas. */
  lemma SolutionGasDefault(m: map<string, Json>)
    requires "gas" !in m
    ensures DecodeSolution(Obj(m)).Ok? ==> DecodeSolution(Obj(m)).value.gas == None
  {
  }

  /** Without its interaction lists, an object that reads as `s` reads as `s` with empty lists there. */
  lemma SolutionFromFieldsWithoutCalls(m: map<string, Json>, s: Solution)
    requires Field(m, "id", DecodeU64) == Ok(s.id)
    requires Field(m, "prices", DecodePrices) == Ok(s.prices)
    requires Field(m, "trades", DecodeTrades) == Ok(s.trades)
    requires Field(m, "interactions", DecodeInteractions) == Ok(s.interactions)
    requires OptionField(m, "gas", DecodeU64) == Ok(s.gas)
    ensures DecodeSolution(Obj(m - {"preInteractions", "postInteractions"}))
         == Ok(s.(preInteractions := [], postInteractions := []))
  {
    var removed := {"preInteractions", "postInteractions"};
    FieldsWithout(m, removed, "id", DecodeU64, 0);
    FieldsWithout(m, removed, "prices", DecodePrices, map[]);
    FieldsWithout(m, removed, "trades", DecodeTrades, []);
    FieldsWithout(m, removed, "interactions", DecodeInteractions, []);
    FieldsWithout(m, removed, "gas", DecodeU64, 0);
    SolutionFromFields(m - removed, s.(preInteractions := [], postInteractions := []));
  }

  /** Dropping both interaction lists from an encoded solution reads back as empty lists. */
  lemma SolutionWithoutCalls(s: Solution)
    ensures DecodeSolution(Obj(EncodeSolution(s).fields - {"preInteractions", "postInteractions"}))
         == Ok(s.(preInteractions := [], postInteractions := []))
  {
    SolutionIdField(s);
    SolutionGasOmitted(s);
    SolutionCollectionFields(s);
    SolutionFromFieldsWithoutCalls(EncodeSolution(s).fields, s);
  }

  // ---------------------------------------------------------------------
  // Solutions
  // ---------------------------------------------------------------------

  function EncodeSolutionList(xs: seq<Solution>): Json
  {
    EncodeSeq(xs, EncodeSolution)
  }

  function DecodeSolutionList(j: Json): Decoded<seq<Solution>>
  {
    DecodeSeq(j, DecodeSolution)
  }

  function EncodeSolutions(s: Solutions): Json
  {
    Obj(map["solutions" := EncodeSolutionList(s.solutions)])
  }

  function DecodeSolutions(j: Json): Decoded<Solutions>
  {
    var m :- DecodeObject(j);
    var solutions :- Field(m, "solutions", DecodeSolutionList);
    Ok(Solutions(solutions))
  }

  lemma SolutionsRoundTrip(s: Solutions)
    ensures DecodeSolutions(EncodeSolutions(s)) == Ok(s)
  {
    forall x ensures DecodeSolution(EncodeSolution(x)) == Ok(x) { SolutionRoundTrip(x); }
    SeqRoundTrip(s.solutions, EncodeSolution, DecodeSolution);
  }
}
