/** Properties relating the payment-flow record's operations to each other and
    to the boundary cases `test/unit/payments/payment-flow.spec.ts` pins down. */
module PaymentFlowProperties {
  import opened Wrappers
  import opened Amounts
  import opened Errors
  import opened PaymentFlow

  /** The total amounts in the sender's currency. */
  function TotalInCurrency(t: AmountPair, c: Currency): nat {
    if c == Btc then t.btc.amount else t.usd.amount
  }

  /** The totals are the fee-less payment amounts plus the protocol fees,
      currency by currency; in the sender's currency that is the amount the
      balance check requires. */
  lemma PaymentAmountsPlusFeesAreTotals(s: FlowCommon)
    ensures TotalAmountsForPayment(s).btc.amount == PaymentAmounts(s).btc.amount + s.btcProtocolFee.amount
    ensures TotalAmountsForPayment(s).usd.amount == PaymentAmounts(s).usd.amount + s.usdProtocolFee.amount
    ensures RequiredInSenderCurrency(s)
         == (if s.senderWalletCurrency == Btc then PaymentAmounts(s).btc.amount else PaymentAmounts(s).usd.amount)
            + ProtocolFeeInSenderWalletCurrency(s).amount
  {
  }

  /** `checkBalanceForSend` accepts exactly the balances in the sender's
      currency that cover `totalAmountsForPayment` in that currency, and that
      total is the payment amount plus the fee
      `protocolFeeInSenderWalletCurrency` selects. */
  lemma CheckBalanceMatchesTotals(s: FlowCommon, balance: PaymentAmount)
    ensures CheckBalanceForSend(s, balance) == Pass <==>
      balance.currency == s.senderWalletCurrency
      && balance.amount >= TotalInCurrency(TotalAmountsForPayment(s), balance.currency)
    ensures TotalInCurrency(TotalAmountsForPayment(s), s.senderWalletCurrency) == RequiredInSenderCurrency(s)
  {
  }

  /** The boundary cases of the unit tests: one unit over the total passes,
      exactly the total passes, one unit under fails with
      `InsufficientBalanceError`, and the wrong currency fails with
      `InvalidCurrencyForWalletError` even when the amount would cover it. */
  lemma CheckBalanceBoundaries(s: FlowCommon)
    ensures var total := RequiredInSenderCurrency(s);
      && CheckBalanceForSend(s, PaymentAmount(total + 1, s.senderWalletCurrency)) == Pass
      && CheckBalanceForSend(s, PaymentAmount(total, s.senderWalletCurrency)) == Pass
      && (total > 0 ==>
            CheckBalanceForSend(s, PaymentAmount(total - 1, s.senderWalletCurrency))
            == Fail(InsufficientBalanceError(total, total - 1)))
      && CheckBalanceForSend(s, PaymentAmount(total + 1, if s.senderWalletCurrency == Btc then Usd else Btc))
         == Fail(InvalidCurrencyForWalletError)
  {
  }

  /** A larger balance in the same currency never turns a pass into a failure. */
  lemma CheckBalanceMonotone(s: FlowCommon, balance: PaymentAmount, extra: nat)
    requires CheckBalanceForSend(s, balance) == Pass
    ensures CheckBalanceForSend(s, PaymentAmount(balance.amount + extra, balance.currency)) == Pass
  {
  }

  /** The worked example: a BTC sender paying 20,000 sats with a 400-sat
      protocol fee can send from 20,400 sats but not from 20,399. */
  lemma CheckBalanceScenario(s: FlowCommon)
    requires s.senderWalletCurrency == Btc
    requires s.btcPaymentAmount.amount == 20000 && s.btcProtocolFee.amount == 400
    ensures CheckBalanceForSend(s, PaymentAmount(20400, Btc)) == Pass
    ensures CheckBalanceForSend(s, PaymentAmount(20399, Btc)) == Fail(InsufficientBalanceError(20400, 20399))
  {
  }

  /** The sender descriptor, the selected protocol fee and the balance check
      agree on the sender's currency: a balance in the descriptor's currency is
      never rejected for its currency. */
  lemma SenderDescriptorAgreesWithChecks(s: FlowCommon, balance: PaymentAmount)
    requires balance.currency == SenderWalletDescriptor(s).currency
    ensures ProtocolFeeInSenderWalletCurrency(s).currency == SenderWalletDescriptor(s).currency
    ensures CheckBalanceForSend(s, balance) != Fail(InvalidCurrencyForWalletError)
    ensures SenderWalletDescriptor(s).id == s.senderWalletId && SenderWalletDescriptor(s).accountId == s.senderAccountId
  {
  }

  /** A cached route the validator rejects is treated exactly as if nothing
      had been cached: no route and no outgoing node, and no error. */
  lemma StaleRouteIsDropped(s: FlowCommon, validate: RouteValidatorFn)
    requires s.cachedRoute.Some? && validate(s.cachedRoute.value, s.btcPaymentAmount).Fail?
    ensures GetRouteDetails(s, validate) == GetRouteDetails(s.(cachedRoute := None), validate)
    ensures GetRouteDetails(s, validate) == RouteDetails(None, None)
  {
  }

  /** A route the validator accepts comes back unchanged with the stored
      outgoing node pubkey. */
  lemma ValidRouteIsKept(s: FlowCommon, validate: RouteValidatorFn)
    requires s.cachedRoute.Some? && validate(s.cachedRoute.value, s.btcPaymentAmount) == Pass
    ensures GetRouteDetails(s, validate) == RouteDetails(s.cachedRoute, s.outgoingNodePubkey)
  {
  }

  /** The two hash accessors: with exactly one hash set exactly one of them
      succeeds and the other names the hash that is present instead; with both
      or neither set both report the builder-state error. */
  lemma ExactlyOneHashAccessorSucceeds(f: LightningFlow)
    ensures !(PaymentHashForFlow(f).Success? && IntraLedgerHashForFlow(f).Success?)
    ensures PaymentHashForFlow(f).Success? || IntraLedgerHashForFlow(f).Success? <==>
      Truthy(f.paymentHash) != Truthy(f.intraLedgerHash)
    ensures Truthy(f.paymentHash) && !Truthy(f.intraLedgerHash) ==>
      IntraLedgerHashForFlow(f) == Failure(LnHashPresentInIntraLedgerFlowError)
    ensures Truthy(f.intraLedgerHash) && !Truthy(f.paymentHash) ==>
      PaymentHashForFlow(f) == Failure(IntraLedgerHashPresentInLnFlowError)
    ensures Truthy(f.paymentHash) == Truthy(f.intraLedgerHash) ==>
      PaymentHashForFlow(f) == IntraLedgerHashForFlow(f) == Failure(InvalidLightningPaymentFlowBuilderStateError)
  {
  }

  /** Bank fees are reported as stored and take no part in the totals or in
      either balance check. */
  lemma BankFeesExcludedFromChecks(f: OnChainFlow, btcBankFee: BtcAmount, usdBankFee: UsdAmount, balance: BtcAmount)
    ensures var g := f.(btcBankFee := btcBankFee, usdBankFee := usdBankFee);
      && BankFees(g) == AmountPair(btcBankFee, usdBankFee)
      && TotalAmountsForPayment(g.common) == TotalAmountsForPayment(f.common)
      && CheckBalanceForSend(g.common, balance) == CheckBalanceForSend(f.common, balance)
      && CheckOnChainAvailableBalanceForSend(g, balance) == CheckOnChainAvailableBalanceForSend(f, balance)
  {
  }

  /** The on-chain availability check ignores the protocol fees altogether. */
  lemma OnChainCheckIgnoresProtocolFee(f: OnChainFlow, btcFee: BtcAmount, usdFee: UsdAmount, balance: BtcAmount)
    ensures CheckOnChainAvailableBalanceForSend(
              f.(common := f.common.(btcProtocolFee := btcFee, usdProtocolFee := usdFee)), balance)
            == CheckOnChainAvailableBalanceForSend(f, balance)
  {
  }

  /** Without a miner fee (an intraledger on-chain flow, or one not yet
      estimated) the on-chain balance only has to cover the BTC amount: equal
      or one more passes, one less needs a rebalance. */
  lemma OnChainBoundariesWithoutMinerFee(f: OnChainFlow)
    requires f.btcMinerFee.None?
    ensures var amount := f.common.btcPaymentAmount.amount;
      && CheckOnChainAvailableBalanceForSend(f, PaymentAmount(amount + 1, Btc)) == Pass
      && CheckOnChainAvailableBalanceForSend(f, PaymentAmount(amount, Btc)) == Pass
      && (amount > 0 ==> CheckOnChainAvailableBalanceForSend(f, PaymentAmount(amount - 1, Btc)) == Fail(RebalanceNeededError))
  {
  }

  /** A shortfall is reported the same way whatever its size or cause: two
      failing balances give the identical error, so a caller learns nothing
      about how far off it was. */
  lemma OnChainShortfallIsUninformative(f: OnChainFlow, g: OnChainFlow, b1: BtcAmount, b2: BtcAmount)
    requires CheckOnChainAvailableBalanceForSend(f, b1).Fail? && CheckOnChainAvailableBalanceForSend(g, b2).Fail?
    ensures CheckOnChainAvailableBalanceForSend(f, b1) == CheckOnChainAvailableBalanceForSend(g, b2)
  {
  }
}
