/** The immutable payment-flow record (`src/domain/payments/payment-flow.ts`):
    the amounts and fees of one payment in both currencies, and the queries and
    checks a caller runs on it before funds move. Everything here is pure. */
module PaymentFlow {
  import opened Wrappers
  import opened Amounts
  import opened Errors

  /** A previously computed Lightning route; its contents matter only to the
      route validator, which this model takes as a parameter. */
  datatype RawRoute = RawRoute(description: string)

  /** `RouteValidator(route).validate(btcPaymentAmount)`: `Pass` while the cached
      route still fits the amount, a failure when it has gone stale. */
  type RouteValidatorFn = (RawRoute, BtcAmount) -> Outcome<PaymentError>

  /** The fields every flow carries (`PaymentFlowCommonState`). Optional fields
      are `Option`s; the source tests the string-valued ones for truthiness. */
  datatype FlowCommon = FlowCommon(
    senderWalletId: string,
    senderWalletCurrency: Currency,
    senderAccountId: string,
    btcPaymentAmount: BtcAmount,
    usdPaymentAmount: UsdAmount,
    btcProtocolFee: BtcAmount,
    usdProtocolFee: UsdAmount,
    recipientWalletId: Option<string>,
    recipientWalletCurrency: Option<Currency>,
    recipientAccountId: Option<string>,
    recipientPubkey: Option<string>,
    recipientUsername: Option<string>,
    recipientUserId: Option<string>,
    cachedRoute: Option<RawRoute>,
    outgoingNodePubkey: Option<string>)

  /** A Lightning or intraledger flow: exactly one of the two hashes is meant to be set. */
  datatype LightningFlow = LightningFlow(
    common: FlowCommon,
    paymentHash: Option<string>,
    intraLedgerHash: Option<string>)

  /** An on-chain flow: destination address, bank fees and, for external sends
      that went through the miner-fee estimate, a miner fee. */
  datatype OnChainFlow = OnChainFlow(
    common: FlowCommon,
    address: Option<string>,
    btcBankFee: BtcAmount,
    usdBankFee: UsdAmount,
    btcMinerFee: Option<BtcAmount>)

  datatype RouteDetails = RouteDetails(rawRoute: Option<RawRoute>, outgoingNodePubkey: Option<string>)

  datatype RecipientDetails = RecipientDetails(
    walletDescriptor: Option<WalletDescriptor>,
    recipientPubkey: Option<string>,
    recipientUsername: Option<string>,
    recipientUserId: Option<string>)

  // ---------------------------------------------------------------------------
  // Common operations
  // ---------------------------------------------------------------------------

  /** The protocol fee in the sender wallet's currency: one of the two stored
      fees, chosen by currency, never a conversion of the other one. */
  function ProtocolFeeInSenderWalletCurrency(s: FlowCommon): (fee: PaymentAmount)
    ensures fee.currency == s.senderWalletCurrency
    ensures fee == s.btcProtocolFee || fee == s.usdProtocolFee
  {
    if s.senderWalletCurrency == Btc then s.btcProtocolFee else s.usdProtocolFee
  }

  /** The stored payment amount in currency `c`. */
  function PaymentAmountIn(s: FlowCommon, c: Currency): (a: PaymentAmount)
    ensures a.currency == c
  {
    if c == Btc then s.btcPaymentAmount else s.usdPaymentAmount
  }

  /** The payment amounts without fees: what `TotalAmountsForPayment` adds
      the protocol fees to, currency by currency. */
  function PaymentAmounts(s: FlowCommon): (p: AmountPair)
    ensures p.btc == PaymentAmountIn(s, Btc) && p.usd == PaymentAmountIn(s, Usd)
  {
    AmountPair(s.btcPaymentAmount, s.usdPaymentAmount)
  }

  /** Amount plus protocol fee, computed separately in each currency. */
  function TotalAmountsForPayment(s: FlowCommon): (t: AmountPair)
    ensures t.btc.amount == s.btcPaymentAmount.amount + s.btcProtocolFee.amount
    ensures t.usd.amount == s.usdPaymentAmount.amount + s.usdProtocolFee.amount
  {
    AmountPair(Add(s.btcPaymentAmount, s.btcProtocolFee), Add(s.usdPaymentAmount, s.usdProtocolFee))
  }

  /** The total the sender's wallet must cover, in the sender's currency. */
  function RequiredInSenderCurrency(s: FlowCommon): nat {
    PaymentAmountIn(s, s.senderWalletCurrency).amount + ProtocolFeeInSenderWalletCurrency(s).amount
  }

  /** `checkBalanceForSend`: a balance in the wrong currency is rejected before
      any amount is looked at; otherwise the balance must cover amount plus
      protocol fee in that currency, equality included. */
  function CheckBalanceForSend(s: FlowCommon, balance: PaymentAmount): (r: Outcome<PaymentError>)
    ensures balance.currency != s.senderWalletCurrency ==> r == Fail(InvalidCurrencyForWalletError)
    ensures balance.currency == s.senderWalletCurrency ==>
      (r == Pass <==> balance.amount >= PaymentAmountIn(s, balance.currency).amount
                                         + (if balance.currency == Btc then s.btcProtocolFee.amount
                                            else s.usdProtocolFee.amount))
    ensures balance.currency == s.senderWalletCurrency && r.Fail? ==>
      r.error == InsufficientBalanceError(RequiredInSenderCurrency(s), balance.amount)
  {
    if s.senderWalletCurrency != balance.currency then
      Fail(InvalidCurrencyForWalletError)
    else
      var sendAmount :=
        if balance.currency == Btc then Add(s.btcPaymentAmount, s.btcProtocolFee)
        else Add(s.usdPaymentAmount, s.usdProtocolFee);
      if balance.amount < sendAmount.amount then
        Fail(InsufficientBalanceError(sendAmount.amount, balance.amount))
      else
        Pass
  }

  /** `routeDetails`: the cached route is handed out only while the validator
      still accepts it for the current BTC amount; a stale route is dropped
      silently, and the outgoing node pubkey travels only with a route. */
  function GetRouteDetails(s: FlowCommon, validate: RouteValidatorFn): (d: RouteDetails)
    ensures d.rawRoute.Some? <==>
      s.cachedRoute.Some? && validate(s.cachedRoute.value, s.btcPaymentAmount) == Pass
    ensures d.rawRoute.Some? ==> d.rawRoute == s.cachedRoute
    ensures d.outgoingNodePubkey.Some? ==> d.rawRoute.Some? && d.outgoingNodePubkey == s.outgoingNodePubkey
    ensures d.rawRoute.Some? ==> d.outgoingNodePubkey == s.outgoingNodePubkey
  {
    var rawRoute :=
      if s.cachedRoute.Some? && validate(s.cachedRoute.value, s.btcPaymentAmount).Fail? then None
      else s.cachedRoute;
    RouteDetails(rawRoute, if rawRoute.Some? then s.outgoingNodePubkey else None)
  }

  /** `recipientWalletDescriptor`: present exactly when recipient wallet id,
      currency and account id are all set (ids non-empty). */
  function RecipientWalletDescriptor(s: FlowCommon): (r: Option<WalletDescriptor>)
    ensures r.Some? <==>
      Truthy(s.recipientWalletId) && s.recipientWalletCurrency.Some? && Truthy(s.recipientAccountId)
    ensures r.Some? ==>
      && r.value.id == s.recipientWalletId.value
      && r.value.currency == s.recipientWalletCurrency.value
      && r.value.accountId == s.recipientAccountId.value
  {
    if Truthy(s.recipientWalletId) && s.recipientWalletCurrency.Some? && Truthy(s.recipientAccountId) then
      Some(WalletDescriptor(s.recipientWalletId.value, s.recipientWalletCurrency.value, s.recipientAccountId.value))
    else
      None
  }

  /** `recipientDetails`: the source builds the descriptor a second time here;
      it agrees with `RecipientWalletDescriptor`, and the identity fields pass
      through unchanged. */
  function GetRecipientDetails(s: FlowCommon): (d: RecipientDetails)
    ensures d.walletDescriptor == RecipientWalletDescriptor(s)
    ensures d.recipientPubkey == s.recipientPubkey
    ensures d.recipientUsername == s.recipientUsername
    ensures d.recipientUserId == s.recipientUserId
  {
    var descriptor :=
      if s.recipientWalletId.Some? && s.recipientWalletId.value != ""
         && s.recipientWalletCurrency.Some?
         && s.recipientAccountId.Some? && s.recipientAccountId.value != ""
      then Some(WalletDescriptor(s.recipientWalletId.value, s.recipientWalletCurrency.value, s.recipientAccountId.value))
      else None;
    RecipientDetails(descriptor, s.recipientPubkey, s.recipientUsername, s.recipientUserId)
  }

  /** The sender's wallet identity; its currency is the one the fee selection
      and the balance check use. */
  function SenderWalletDescriptor(s: FlowCommon): (d: WalletDescriptor)
    ensures d.currency == ProtocolFeeInSenderWalletCurrency(s).currency
    ensures d.id == s.senderWalletId && d.accountId == s.senderAccountId
  {
    WalletDescriptor(s.senderWalletId, s.senderWalletCurrency, s.senderAccountId)
  }

  // ---------------------------------------------------------------------------
  // Lightning / intraledger flow
  // ---------------------------------------------------------------------------

  /** `paymentHashForFlow`: succeeds only on a Lightning flow (payment hash set,
      intraledger hash not); each illegal shape has its own error. */
  function PaymentHashForFlow(f: LightningFlow): (r: Result<string, PaymentError>)
    ensures Truthy(f.paymentHash) == Truthy(f.intraLedgerHash) ==>
      r == Failure(InvalidLightningPaymentFlowBuilderStateError)
    ensures Truthy(f.intraLedgerHash) && !Truthy(f.paymentHash) ==>
      r == Failure(IntraLedgerHashPresentInLnFlowError)
    ensures r.Success? <==> Truthy(f.paymentHash) && !Truthy(f.intraLedgerHash)
    ensures r.Success? ==> Some(r.value) == f.paymentHash
  {
    if Truthy(f.paymentHash) == Truthy(f.intraLedgerHash) then
      Failure(InvalidLightningPaymentFlowBuilderStateError)
    else if !Truthy(f.paymentHash) then
      Failure(IntraLedgerHashPresentInLnFlowError)
    else
      Success(f.paymentHash.value)
  }

  /** `intraLedgerHashForFlow`: the mirror image of `PaymentHashForFlow`. */
  function IntraLedgerHashForFlow(f: LightningFlow): (r: Result<string, PaymentError>)
    ensures Truthy(f.paymentHash) == Truthy(f.intraLedgerHash) ==>
      r == Failure(InvalidLightningPaymentFlowBuilderStateError)
    ensures Truthy(f.paymentHash) && !Truthy(f.intraLedgerHash) ==>
      r == Failure(LnHashPresentInIntraLedgerFlowError)
    ensures r.Success? <==> Truthy(f.intraLedgerHash) && !Truthy(f.paymentHash)
    ensures r.Success? ==> Some(r.value) == f.intraLedgerHash
  {
    if Truthy(f.paymentHash) == Truthy(f.intraLedgerHash) then
      Failure(InvalidLightningPaymentFlowBuilderStateError)
    else if !Truthy(f.intraLedgerHash) then
      Failure(LnHashPresentInIntraLedgerFlowError)
    else
      Success(f.intraLedgerHash.value)
  }

  // ---------------------------------------------------------------------------
  // On-chain flow
  // ---------------------------------------------------------------------------

  /** `addressForFlow`: only a missing address is an error; the source compares
      with `undefined`, so an empty address string is handed out as is. */
  function AddressForFlow(f: OnChainFlow): (r: Result<string, PaymentError>)
    ensures r.Failure? <==> f.address.None?
    ensures r.Failure? ==> r.error == InvalidOnChainPaymentFlowBuilderStateError
    ensures r.Success? ==> f.address == Some(r.value)
  {
    match f.address
    case None => Failure(InvalidOnChainPaymentFlowBuilderStateError)
    case Some(a) => Success(a)
  }

  /** The on-chain bank fees, as stored, one per currency. */
  function BankFees(f: OnChainFlow): (fees: AmountPair)
    ensures fees.btc == f.btcBankFee && fees.usd == f.usdBankFee
  {
    AmountPair(f.btcBankFee, f.usdBankFee)
  }

  /** The miner fee in satoshis, counting a missing estimate as zero. */
  function MinerFeeOrZero(f: OnChainFlow): (fee: BtcAmount)
    ensures f.btcMinerFee.None? ==> fee.amount == 0
    ensures f.btcMinerFee.Some? ==> fee == f.btcMinerFee.value
  {
    if f.btcMinerFee.Some? then f.btcMinerFee.value else ZeroSats
  }

  /** `checkOnChainAvailableBalanceForSend`: the on-chain balance must cover the
      BTC amount plus the miner fee (protocol fee not included); any shortfall
      gets the same uninformative error. */
  function CheckOnChainAvailableBalanceForSend(f: OnChainFlow, balance: BtcAmount): (r: Outcome<PaymentError>)
    ensures r == Pass <==>
      balance.amount >= f.common.btcPaymentAmount.amount
                        + (if f.btcMinerFee.Some? then f.btcMinerFee.value.amount else 0)
    ensures r.Fail? ==> r.error == RebalanceNeededError
  {
    var totalSendAmount := Add(f.common.btcPaymentAmount, MinerFeeOrZero(f));
    if balance.amount < totalSendAmount.amount then Fail(RebalanceNeededError) else Pass
  }
}
