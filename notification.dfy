/**
 * The notifications the driver sends to a solver about what became of its
 * solutions (src/notification.rs): an optional auction id, an optional
 * solution id that is a single number or a list of merged ones, and the
 * kind of event, whose tag and fields sit at the top level of the object.
 */
module NotificationSchema {
  import opened Wrappers
  import opened Primitives
  import opened Json
  import AddressSet

  // ---------------------------------------------------------------------
  // Entities
  // ---------------------------------------------------------------------

  datatype Notification = Notification(auctionId: Option<I64>, solutionId: Option<SolutionId>, kind: Kind)

  /** Untagged: a bare number or a bare array of numbers. */
  datatype SolutionId = Single(id: U64) | Merged(ids: seq<U64>)

  /** A BTreeSet<Address>, held as the ascending sequence it iterates in. */
  type TokenSet = s: seq<Address> | AddressSet.StrictlySorted(s)

  /** Internally tagged by "kind"; flattened into the notification. */
  datatype Kind =
    | Timeout
    | EmptySolution
    | DuplicatedSolutionId
    | SimulationFailed(block: U64, tx: Tx, succeededOnce: bool)
    | InvalidClearingPrices
    | MissingPrice(tokenAddress: Address)
    | InvalidExecutedAmount
    | NonBufferableTokensUsed(tokens: TokenSet)
    | SolverAccountInsufficientBalance(required: U256)
    | Success(transaction: B256)
    | Revert(transaction: B256)
    | DriverError(reason: string)
    | Cancelled
    | Fail
    | PostprocessingTimedOut

  datatype Tx = Tx(from: Address, to: Address, input: seq<Byte>, value: U256, accessList: AccessList)

  // ---------------------------------------------------------------------
  // SolutionId: untagged, Single tried before Merged
  // ---------------------------------------------------------------------

  function EncodeSolutionId(s: SolutionId): Json
  {
    match s
    case Single(n) => EncodeU64(n)
    case Merged(ns) => EncodeSeq(ns, EncodeU64)
  }

  /**
   * Each variant is tried in declaration order and the first that reads the
   * value wins; if none does, the value is refused.
   */
  function DecodeSolutionId(j: Json): (r: Decoded<SolutionId>)
    ensures r.Ok? && r.value.Single? <==> DecodeU64(j).Ok?
    ensures r.Ok? && r.value.Merged? <==> DecodeU64(j).Err? && DecodeSeq(j, DecodeU64).Ok?
  {
    match DecodeU64(j)
    case Ok(n) => Ok(Single(n))
    case Err(_) =>
      match DecodeSeq(j, DecodeU64)
      case Ok(ns) => Ok(Merged(ns))
      case Err(_) => Err(NoVariantMatched)
  }

  lemma SolutionIdRoundTrip(s: SolutionId)
    ensures DecodeSolutionId(EncodeSolutionId(s)) == Ok(s)
  {
    match s
    case Single(n) =>
    case Merged(ns) =>
      SeqRoundTrip(ns, EncodeU64, DecodeU64);
  }

  /** A single id is a bare number and merged ids a bare array: no tag and no wrapper object. */
  lemma SolutionIdShape(s: SolutionId)
    ensures s.Single? ==> EncodeSolutionId(s) == Num(s.id)
    ensures s.Merged? ==> EncodeSolutionId(s).Arr? && |EncodeSolutionId(s).items| == |s.ids|
    ensures s.Merged? ==> forall i | 0 <= i < |s.ids| :: EncodeSolutionId(s).items[i] == Num(s.ids[i])
  {
  }

  /** Anything that is neither a u64 nor an array of them is refused. */
  lemma SolutionIdRefusesOthers(j: Json)
    requires !j.Num? && !j.Arr?
    ensures DecodeSolutionId(j) == Err(NoVariantMatched)
  {
  }

  function EncodeOptionSolutionId(s: Option<SolutionId>): Json
  {
    EncodeOption(s, EncodeSolutionId)
  }

  // ---------------------------------------------------------------------
  // Tx and the token set
  // ---------------------------------------------------------------------

  function EncodeTx(t: Tx): Json
  {
    Obj(map[
      "from" := EncodeAddress(t.from),
      "to" := EncodeAddress(t.to),
      "input" := EncodeBytes(t.input),
      "value" := EncodeU256(t.value),
      "accessList" := EncodeAccessList(t.accessList)])
  }

  function DecodeTx(j: Json): Decoded<Tx>
  {
    var m :- DecodeObject(j);
    var from :- Field(m, "from", DecodeAddress);
    var to :- Field(m, "to", DecodeAddress);
    var input :- Field(m, "input", DecodeBytes);
    var value :- Field(m, "value", DecodeU256);
    var accessList :- Field(m, "accessList", DecodeAccessList);
    Ok(Tx(from, to, input, value, accessList))
  }

  lemma TxRoundTrip(t: Tx)
    ensures DecodeTx(EncodeTx(t)) == Ok(t)
  {
    AddressRoundTrip(t.from);
    AddressRoundTrip(t.to);
    BytesRoundTrip(t.input);
  }

  /** A set is written as the array of its elements in ascending order. */
  function EncodeTokenSet(s: TokenSet): Json
  {
    EncodeSeq(s, EncodeAddress)
  }

  /** Reading a set inserts the addresses one by one: duplicates collapse and the order is sorted. */
  function DecodeTokenSet(j: Json): Decoded<TokenSet>
  {
    var xs :- DecodeSeq(j, DecodeAddress);
    Ok(AddressSet.FromSeq(xs))
  }

  lemma TokenSetRoundTrip(s: TokenSet)
    ensures DecodeTokenSet(EncodeTokenSet(s)) == Ok(s)
  {
    forall a ensures DecodeAddress(EncodeAddress(a)) == Ok(a) { AddressRoundTrip(a); }
    SeqRoundTrip(s, EncodeAddress, DecodeAddress);
    AddressSet.FromSortedSeq(s);
  }

  /**
   * Any array of addresses reads as the sorted, duplicate-free set of the
   * addresses it lists, whatever their order and repetitions.
   */
  lemma TokenSetFromArray(xs: seq<Address>)
    ensures DecodeTokenSet(EncodeSeq(xs, EncodeAddress)) == Ok(AddressSet.FromSeq(xs))
    ensures var s := DecodeTokenSet(EncodeSeq(xs, EncodeAddress)).value;
      AddressSet.Elements(s) == AddressSet.Elements(xs) && AddressSet.StrictlySorted(s)
  {
    forall a ensures DecodeAddress(EncodeAddress(a)) == Ok(a) { AddressRoundTrip(a); }
    SeqRoundTrip(xs, EncodeAddress, DecodeAddress);
  }

  /** Two arrays listing the same addresses read as the same set. */
  lemma TokenSetIgnoresOrder(xs: seq<Address>, ys: seq<Address>)
    requires AddressSet.Elements(xs) == AddressSet.Elements(ys)
    ensures DecodeTokenSet(EncodeSeq(xs, EncodeAddress)) == DecodeTokenSet(EncodeSeq(ys, EncodeAddress))
  {
    TokenSetFromArray(xs);
    TokenSetFromArray(ys);
    AddressSet.FromSeqCanonical(xs, ys);
  }

  /** A repeated address is kept once. */
  lemma TokenSetCollapsesDuplicates(a: Address)
    ensures DecodeTokenSet(EncodeSeq([a, a], EncodeAddress)) == Ok([a])
  {
    TokenSetIgnoresOrder([a, a], [a]);
    TokenSetRoundTrip([a]);
  }

  // ---------------------------------------------------------------------
  // Kind: internally tagged by "kind"
  // ---------------------------------------------------------------------

  /** Which of the fifteen cases a kind is, without its fields. */
  datatype KindTag =
    | TimeoutTag | EmptySolutionTag | DuplicatedSolutionIdTag | SimulationFailedTag
    | InvalidClearingPricesTag | MissingPriceTag | InvalidExecutedAmountTag
    | NonBufferableTokensUsedTag | SolverAccountInsufficientBalanceTag | SuccessTag | RevertTag
    | DriverErrorTag | CancelledTag | FailTag | PostprocessingTimedOutTag

  function TagOf(k: Kind): KindTag
  {
    match k
    case Timeout => TimeoutTag
    case EmptySolution => EmptySolutionTag
    case DuplicatedSolutionId => DuplicatedSolutionIdTag
    case SimulationFailed(_, _, _) => SimulationFailedTag
    case InvalidClearingPrices => InvalidClearingPricesTag
    case MissingPrice(_) => MissingPriceTag
    case InvalidExecutedAmount => InvalidExecutedAmountTag
    case NonBufferableTokensUsed(_) => NonBufferableTokensUsedTag
    case SolverAccountInsufficientBalance(_) => SolverAccountInsufficientBalanceTag
    case Success(_) => SuccessTag
    case Revert(_) => RevertTag
    case DriverError(_) => DriverErrorTag
    case Cancelled => CancelledTag
    case Fail => FailTag
    case PostprocessingTimedOut => PostprocessingTimedOutTag
  }

  /** The camelCase name each case is tagged with. */
  function TagName(t: KindTag): string
  {
    match t
    case TimeoutTag => "timeout"
    case EmptySolutionTag => "emptySolution"
    case DuplicatedSolutionIdTag => "duplicatedSolutionId"
    case SimulationFailedTag => "simulationFailed"
    case InvalidClearingPricesTag => "invalidClearingPrices"
    case MissingPriceTag => "missingPrice"
    case InvalidExecutedAmountTag => "invalidExecutedAmount"
    case NonBufferableTokensUsedTag => "nonBufferableTokensUsed"
    case SolverAccountInsufficientBalanceTag => "solverAccountInsufficientBalance"
    case SuccessTag => "success"
    case RevertTag => "revert"
    case DriverErrorTag => "driverError"
    case CancelledTag => "cancelled"
    case FailTag => "fail"
    case PostprocessingTimedOutTag => "postprocessingTimedOut"
  }

  function TagOfName(s: string): Option<KindTag>
  {
    match s
    case "timeout" => Some(TimeoutTag)
    case "emptySolution" => Some(EmptySolutionTag)
    case "duplicatedSolutionId" => Some(DuplicatedSolutionIdTag)
    case "simulationFailed" => Some(SimulationFailedTag)
    case "invalidClearingPrices" => Some(InvalidClearingPricesTag)
    case "missingPrice" => Some(MissingPriceTag)
    case "invalidExecutedAmount" => Some(InvalidExecutedAmountTag)
    case "nonBufferableTokensUsed" => Some(NonBufferableTokensUsedTag)
    case "solverAccountInsufficientBalance" => Some(SolverAccountInsufficientBalanceTag)
    case "success" => Some(SuccessTag)
    case "revert" => Some(RevertTag)
    case "driverError" => Some(DriverErrorTag)
    case "cancelled" => Some(CancelledTag)
    case "fail" => Some(FailTag)
    case "postprocessingTimedOut" => Some(PostprocessingTimedOutTag)
    case _ => None
  }

  /** The tag table is a bijection between the fifteen cases and their names. */
  lemma TagNames(t: KindTag, s: string)
    ensures TagOfName(TagName(t)) == Some(t)
    ensures TagOfName(s) == Some(t) ==> TagName(t) == s
  {
    if t.TimeoutTag? || t.EmptySolutionTag? || t.DuplicatedSolutionIdTag? {
      TagNamesPart1(t, s);
    } else if t.SimulationFailedTag? || t.InvalidClearingPricesTag? || t.MissingPriceTag? {
      TagNamesPart2(t, s);
    } else if t.InvalidExecutedAmountTag? || t.NonBufferableTokensUsedTag? || t.SolverAccountInsufficientBalanceTag? {
      TagNamesPart3(t, s);
    } else if t.SuccessTag? || t.RevertTag? || t.DriverErrorTag? {
      TagNamesPart4(t, s);
    } else {
      TagNamesPart5(t, s);
    }
  }

  lemma TagNamesPart1(t: KindTag, s: string)
    requires t.TimeoutTag? || t.EmptySolutionTag? || t.DuplicatedSolutionIdTag?
    ensures TagOfName(TagName(t)) == Some(t)
    ensures TagOfName(s) == Some(t) ==> TagName(t) == s
  {
  }

  lemma TagNamesPart2(t: KindTag, s: string)
    requires t.SimulationFailedTag? || t.InvalidClearingPricesTag? || t.MissingPriceTag?
    ensures TagOfName(TagName(t)) == Some(t)
    ensures TagOfName(s) == Some(t) ==> TagName(t) == s
  {
  }

  lemma TagNamesPart3(t: KindTag, s: string)
    requires t.InvalidExecutedAmountTag? || t.NonBufferableTokensUsedTag? || t.SolverAccountInsufficientBalanceTag?
    ensures TagOfName(TagName(t)) == Some(t)
    ensures TagOfName(s) == Some(t) ==> TagName(t) == s
  {
  }

  lemma TagNamesPart4(t: KindTag, s: string)
    requires t.SuccessTag? || t.RevertTag? || t.DriverErrorTag?
    ensures TagOfName(TagName(t)) == Some(t)
    ensures TagOfName(s) == Some(t) ==> TagName(t) == s
  {
  }

  lemma TagNamesPart5(t: KindTag, s: string)
    requires t.CancelledTag? || t.FailTag? || t.PostprocessingTimedOutTag?
    ensures TagOfName(TagName(t)) == Some(t)
    ensures TagOfName(s) == Some(t) ==> TagName(t) == s
  {
  }

  function KindName(k: Kind): string
  {
    TagName(TagOf(k))
  }

  /** The fields of the case; a case without fields has none. */
  function KindPayload(k: Kind): map<string, Json>
  {
    match k
    case SimulationFailed(block, tx, succeededOnce) =>
      map["block" := EncodeU64(block), "tx" := EncodeTx(tx), "succeededOnce" := Bool(succeededOnce)]
    case MissingPrice(tokenAddress) => map["tokenAddress" := EncodeAddress(tokenAddress)]
    case NonBufferableTokensUsed(tokens) => map["tokens" := EncodeTokenSet(tokens)]
    case SolverAccountInsufficientBalance(required) => map["required" := EncodeU256(required)]
    case Success(transaction) => map["transaction" := EncodeB256(transaction)]
    case Revert(transaction) => map["transaction" := EncodeB256(transaction)]
    case DriverError(reason) => map["reason" := Str(reason)]
    case _ => map[]
  }

  function EncodeKind(k: Kind): Json
  {
    TagObject("kind", KindName(k), KindPayload(k))
  }

  function DecodeSimulationFailed(m: map<string, Json>): (r: Decoded<Kind>)
    ensures r.Ok? ==> r.value.SimulationFailed?
  {
    var block :- Field(m, "block", DecodeU64);
    var tx :- Field(m, "tx", DecodeTx);
    var succeededOnce :- Field(m, "succeededOnce", DecodeBool);
    Ok(SimulationFailed(block, tx, succeededOnce))
  }

  /** Reads the fields of the case a tag selects; a case without fields ignores the entries. */
  function DecodeKindBody(t: KindTag, m: map<string, Json>): (r: Decoded<Kind>)
    ensures r.Ok? ==> TagOf(r.value) == t
  {
    match t
    case TimeoutTag => Ok(Timeout)
    case EmptySolutionTag => Ok(EmptySolution)
    case DuplicatedSolutionIdTag => Ok(DuplicatedSolutionId)
    case SimulationFailedTag => DecodeSimulationFailed(m)
    case InvalidClearingPricesTag => Ok(InvalidClearingPrices)
    case MissingPriceTag =>
      var tokenAddress :- Field(m, "tokenAddress", DecodeAddress);
      Ok(MissingPrice(tokenAddress))
    case InvalidExecutedAmountTag => Ok(InvalidExecutedAmount)
    case NonBufferableTokensUsedTag =>
      var tokens :- Field(m, "tokens", DecodeTokenSet);
      Ok(NonBufferableTokensUsed(tokens))
    case SolverAccountInsufficientBalanceTag =>
      var required :- Field(m, "required", DecodeU256);
      Ok(SolverAccountInsufficientBalance(required))
    case SuccessTag =>
      var transaction :- Field(m, "transaction", DecodeB256);
      Ok(Success(transaction))
    case RevertTag =>
      var transaction :- Field(m, "transaction", DecodeB256);
      Ok(Revert(transaction))
    case DriverErrorTag =>
      var reason :- Field(m, "reason", DecodeString);
      Ok(DriverError(reason))
    case CancelledTag => Ok(Cancelled)
    case FailTag => Ok(Fail)
    case PostprocessingTimedOutTag => Ok(PostprocessingTimedOut)
  }

  /** Reads the case a tag names from the remaining entries; an unknown name is refused. */
  function DecodeKindVariant(name: string, j: Json): (r: Decoded<Kind>)
    ensures r.Ok? ==> KindName(r.value) == name
  {
    var m :- DecodeObject(j);
    match TagOfName(name)
    case None => Err(UnknownVariant(name))
    case Some(t) =>
      TagNames(t, name);
      DecodeKindBody(t, m)
  }

  function DecodeKind(j: Json): Decoded<Kind>
  {
    DecodeTagged(j, "kind", DecodeKindVariant)
  }

  /** No case uses the keys "kind", "auctionId" or "solutionId" for a field. */
  lemma KindPayloadKeys(k: Kind)
    ensures "kind" !in KindPayload(k)
    ensures "auctionId" !in KindPayload(k) && "solutionId" !in KindPayload(k)
  {
  }

  // Each case with fields reads back from its own fields.

  lemma SimulationFailedBodyRoundTrip(k: Kind)
    requires k.SimulationFailed?
    ensures DecodeKindBody(SimulationFailedTag, KindPayload(k)) == Ok(k)
  {
    TxRoundTrip(k.tx);
  }

  lemma MissingPriceBodyRoundTrip(k: Kind)
    requires k.MissingPrice?
    ensures DecodeKindBody(MissingPriceTag, KindPayload(k)) == Ok(k)
  {
    AddressRoundTrip(k.tokenAddress);
  }

  lemma NonBufferableTokensUsedBodyRoundTrip(k: Kind)
    requires k.NonBufferableTokensUsed?
    ensures DecodeKindBody(NonBufferableTokensUsedTag, KindPayload(k)) == Ok(k)
  {
    TokenSetRoundTrip(k.tokens);
  }

  lemma SolverAccountInsufficientBalanceBodyRoundTrip(k: Kind)
    requires k.SolverAccountInsufficientBalance?
    ensures DecodeKindBody(SolverAccountInsufficientBalanceTag, KindPayload(k)) == Ok(k)
  {
  }

  lemma SuccessBodyRoundTrip(k: Kind)
    requires k.Success?
    ensures DecodeKindBody(SuccessTag, KindPayload(k)) == Ok(k)
  {
    B256RoundTrip(k.transaction);
  }

  lemma RevertBodyRoundTrip(k: Kind)
    requires k.Revert?
    ensures DecodeKindBody(RevertTag, KindPayload(k)) == Ok(k)
  {
    B256RoundTrip(k.transaction);
  }

  lemma DriverErrorBodyRoundTrip(k: Kind)
    requires k.DriverError?
    ensures DecodeKindBody(DriverErrorTag, KindPayload(k)) == Ok(k)
  {
  }

  /** A case without fields reads back whatever the remaining entries are. */
  lemma UnitKindBodyRoundTrip(k: Kind, m: map<string, Json>)
    requires k.Timeout? || k.EmptySolution? || k.DuplicatedSolutionId? || k.InvalidClearingPrices? ||
             k.InvalidExecutedAmount? || k.Cancelled? || k.Fail? || k.PostprocessingTimedOut?
    ensures DecodeKindBody(TagOf(k), m) == Ok(k)
  {
  }

  lemma FieldKindBodyRoundTrip(k: Kind)
    requires k.SimulationFailed? || k.MissingPrice? || k.NonBufferableTokensUsed? || k.SolverAccountInsufficientBalance? ||
             k.Success? || k.Revert? || k.DriverError?
    ensures DecodeKindBody(TagOf(k), KindPayload(k)) == Ok(k)
  {
    if k.SimulationFailed? {
      SimulationFailedBodyRoundTrip(k);
    } else if k.MissingPrice? {
      MissingPriceBodyRoundTrip(k);
    } else if k.NonBufferableTokensUsed? {
      NonBufferableTokensUsedBodyRoundTrip(k);
    } else if k.SolverAccountInsufficientBalance? {
      SolverAccountInsufficientBalanceBodyRoundTrip(k);
    } else if k.Success? {
      SuccessBodyRoundTrip(k);
    } else if k.Revert? {
      RevertBodyRoundTrip(k);
    } else {
      DriverErrorBodyRoundTrip(k);
    }
  }

  /** Each case reads back from its own fields. */
  lemma KindBodyRoundTrip(k: Kind)
    ensures DecodeKindBody(TagOf(k), KindPayload(k)) == Ok(k)
  {
    if k.SimulationFailed? || k.MissingPrice? || k.NonBufferableTokensUsed? || k.SolverAccountInsufficientBalance? ||
       k.Success? || k.Revert? || k.DriverError? {
      FieldKindBodyRoundTrip(k);
    } else {
      UnitKindBodyRoundTrip(k, KindPayload(k));
    }
  }

  /** Each case reads back from its own fields through the reader its tag selects. */
  lemma KindVariantRoundTrip(k: Kind)
    ensures DecodeKindVariant(KindName(k), Obj(KindPayload(k))) == Ok(k)
  {
    TagNames(TagOf(k), KindName(k));
    KindBodyRoundTrip(k);
  }

  lemma KindRoundTrip(k: Kind)
    ensures DecodeKind(EncodeKind(k)) == Ok(k)
  {
    KindPayloadKeys(k);
    TaggedRoundTrip("kind", KindName(k), KindPayload(k), DecodeKindVariant);
    KindVariantRoundTrip(k);
  }

  /** A case without fields is written as the tag alone. */
  lemma UnitKindShape(k: Kind)
    requires k.Timeout? || k.EmptySolution? || k.DuplicatedSolutionId? || k.InvalidClearingPrices? ||
             k.InvalidExecutedAmount? || k.Cancelled? || k.Fail? || k.PostprocessingTimedOut?
    ensures EncodeKind(k) == Obj(map["kind" := Str(KindName(k))])
  {
  }

  /** Cases with the same name are the same case, so the tag alone tells them apart. */
  lemma KindNameInjective(a: Kind, b: Kind)
    requires KindName(a) == KindName(b)
    ensures TagOf(a) == TagOf(b)
  {
    TagNames(TagOf(a), KindName(b));
  }

  /** A tag outside the fifteen is refused. */
  lemma KindRefusesUnknownName(m: map<string, Json>, name: string)
    requires "kind" in m && m["kind"] == Str(name)
    requires forall t: KindTag :: TagName(t) != name
    ensures DecodeKind(Obj(m)) == Err(UnknownVariant(name))
  {
    if TagOfName(name).Some? {
      TagNames(TagOfName(name).value, name);
    }
  }

  // ---------------------------------------------------------------------
  // Notification: the kind flattened beside the two ids
  // ---------------------------------------------------------------------

  function EncodeAuctionId(id: Option<I64>): Json
  {
    EncodeOption(id, EncodeI64Text)
  }

  /**
   * The two ids first, then the entries of the kind at the same level. Both
   * ids are written, as null when None.
   */
  function EncodeNotification(n: Notification): Json
  {
    Obj(map["auctionId" := EncodeAuctionId(n.auctionId), "solutionId" := EncodeOptionSolutionId(n.solutionId)]
        + EncodeKind(n.kind).fields)
  }

  /** The kind is read from the entries the notification's own fields leave over. */
  function DecodeNotification(j: Json): Decoded<Notification>
  {
    var m :- DecodeObject(j);
    var auctionId :- OptionField(m, "auctionId", DecodeI64Text);
    var solutionId :- OptionField(m, "solutionId", DecodeSolutionId);
    var kind :- DecodeKind(Obj(m - {"auctionId", "solutionId"}));
    Ok(Notification(auctionId, solutionId, kind))
  }

  /** The kind's tag and fields sit beside the ids at one level, and nothing else is written. */
  lemma NotificationFlattened(n: Notification)
    ensures var m := EncodeNotification(n).fields;
      m.Keys == {"auctionId", "solutionId", "kind"} + KindPayload(n.kind).Keys &&
      m["kind"] == Str(KindName(n.kind)) &&
      (forall k | k in KindPayload(n.kind) :: m[k] == KindPayload(n.kind)[k]) &&
      m["auctionId"] == EncodeAuctionId(n.auctionId) && m["solutionId"] == EncodeOptionSolutionId(n.solutionId)
  {
    KindPayloadKeys(n.kind);
  }

  /** The flattened kind is read back from what the two ids leave over. */
  lemma NotificationKindField(n: Notification)
    ensures DecodeKind(Obj(EncodeNotification(n).fields - {"auctionId", "solutionId"})) == Ok(n.kind)
  {
    KindPayloadKeys(n.kind);
    assert EncodeNotification(n).fields - {"auctionId", "solutionId"} == EncodeKind(n.kind).fields;
    KindRoundTrip(n.kind);
  }

  lemma NotificationIdFields(n: Notification)
    ensures OptionField(EncodeNotification(n).fields, "auctionId", DecodeI64Text) == Ok(n.auctionId)
    ensures OptionField(EncodeNotification(n).fields, "solutionId", DecodeSolutionId) == Ok(n.solutionId)
  {
    KindPayloadKeys(n.kind);
    if n.auctionId.Some? {
      TextIntegersRoundTrip(n.auctionId.value, 0, 0);
    }
    if n.solutionId.Some? {
      SolutionIdRoundTrip(n.solutionId.value);
    }
  }

  lemma NotificationRoundTrip(n: Notification)
    ensures DecodeNotification(EncodeNotification(n)) == Ok(n)
  {
    NotificationIdFields(n);
    NotificationKindField(n);
  }

  /** The auction id is written as decimal text, and a notification without one has none. */
  lemma NotificationAuctionIdText(n: Notification, m: map<string, Json>)
    ensures n.auctionId.Some? ==> EncodeNotification(n).fields["auctionId"] == Str(DecimalText.IntText(n.auctionId.value))
    ensures "auctionId" !in m && DecodeNotification(Obj(m)).Ok? ==> DecodeNotification(Obj(m)).value.auctionId == None
  {
    KindPayloadKeys(n.kind);
  }
}
