/** Properties of the decision logic in `src/app/payments/helpers.ts`: which
    collaborator can influence which answer, and how errors are ordered. */
module PaymentHelpersProperties {
  import opened Wrappers
  import opened Amounts
  import opened Errors
  import opened PaymentHelpers

  // ---------------------------------------------------------------------------
  // getPriceRatioForLimits
  // ---------------------------------------------------------------------------

  /** Below the floor the payment amounts do not matter: any two below-floor
      inputs give the same ratio (or the same mid-price error). */
  lemma BelowFloorInputsAgree<R>(minSats: nat, a1: AmountPair, a2: AmountPair,
                                 usdFromBtcMid: UsdFromBtcFn, priceRatio: AmountPair -> Result<R, PaymentError>)
    requires a1.btc.amount < minSats && a2.btc.amount < minSats
    ensures PriceRatioForLimits(minSats, a1, usdFromBtcMid, priceRatio)
         == PriceRatioForLimits(minSats, a2, usdFromBtcMid, priceRatio)
  {
  }

  /** The substitution is the floor amount itself: a below-floor input gives
      the ratio of the pair (`minSats`, its mid-price USD value), which is also
      what that pair gives when passed in directly. */
  lemma BelowFloorEqualsFloorPair<R>(minSats: nat, a: AmountPair,
                                     usdFromBtcMid: UsdFromBtcFn, priceRatio: AmountPair -> Result<R, PaymentError>)
    requires a.btc.amount < minSats
    requires usdFromBtcMid(PaymentAmount(minSats, Btc)).Success?
    ensures var floor := AmountPair(PaymentAmount(minSats, Btc), usdFromBtcMid(PaymentAmount(minSats, Btc)).value);
      PriceRatioForLimits(minSats, a, usdFromBtcMid, priceRatio) == PriceRatioForLimits(minSats, floor, usdFromBtcMid, priceRatio)
  {
  }

  /** At or above the floor the mid price is not consulted: any two mid-price
      functions give the same answer. */
  lemma AboveFloorIgnoresMidPrice<R>(minSats: nat, a: AmountPair, mid1: UsdFromBtcFn, mid2: UsdFromBtcFn,
                                     priceRatio: AmountPair -> Result<R, PaymentError>)
    requires a.btc.amount >= minSats
    ensures PriceRatioForLimits(minSats, a, mid1, priceRatio) == PriceRatioForLimits(minSats, a, mid2, priceRatio)
  {
  }

  /** A mid-price error below the floor is returned as is and no ratio is
      built: any two ratio factories give the same answer. */
  lemma MidPriceErrorSkipsRatio<R>(minSats: nat, a: AmountPair, usdFromBtcMid: UsdFromBtcFn,
                                   ratio1: AmountPair -> Result<R, PaymentError>, ratio2: AmountPair -> Result<R, PaymentError>)
    requires a.btc.amount < minSats && usdFromBtcMid(PaymentAmount(minSats, Btc)).Failure?
    ensures PriceRatioForLimits(minSats, a, usdFromBtcMid, ratio1) == PriceRatioForLimits(minSats, a, usdFromBtcMid, ratio2)
    ensures PriceRatioForLimits(minSats, a, usdFromBtcMid, ratio1) == Failure(usdFromBtcMid(PaymentAmount(minSats, Btc)).error)
  {
  }

  // ---------------------------------------------------------------------------
  // recipientDetailsFromInvoice
  // ---------------------------------------------------------------------------

  /** The paid guard comes before the wallet and account lookups: for a paid
      invoice the answer is `AlreadyPaidError` whatever those lookups would
      return. */
  lemma PaidGuardPrecedesLookups(invoice: LnInvoice, repos: Repositories, other: Repositories)
    requires repos.findInvoiceByPaymentHash(invoice.paymentHash).Success?
    requires repos.findInvoiceByPaymentHash(invoice.paymentHash).value.paid
    requires other.findInvoiceByPaymentHash == repos.findInvoiceByPaymentHash
    ensures RecipientDetailsFromInvoice(invoice, repos) == RecipientDetailsFromInvoice(invoice, other)
    ensures RecipientDetailsFromInvoice(invoice, repos)
         == Failure(AlreadyPaidError(repos.findInvoiceByPaymentHash(invoice.paymentHash).value.paymentHash))
  {
  }

  // ---------------------------------------------------------------------------
  // constructPaymentFlowBuilder
  // ---------------------------------------------------------------------------

  /** A payment that is not intraledger never gets the zero-amount error and
      never consults a repository: whatever `usdPaymentAmount()` answers, the
      converted builder without a recipient wallet is returned. */
  lemma ExternalPaymentReturnsConvertedBuilder(
    lndNodePubkeys: Result<seq<string>, PaymentError>, flaggedPubkeys: seq<string>, senderWallet: WalletDescriptor,
    invoice: LnInvoice, uncheckedAmount: Option<int>, mid: ConversionFns, hedgeBuyUsd: ConversionFns,
    hedgeSellUsd: ConversionFns, queries: BuilderQueries, repos: Repositories, other: Repositories)
    requires lndNodePubkeys.Success?
    requires !queries.isIntraLedger(SenderStage(lndNodePubkeys.value, flaggedPubkeys, senderWallet, invoice, uncheckedAmount))
    ensures var b := ConstructPaymentFlowBuilder(lndNodePubkeys, flaggedPubkeys, senderWallet, invoice, uncheckedAmount,
                                                 mid, hedgeBuyUsd, hedgeSellUsd, queries, repos);
      && b.Success?
      && b.value.WithConversion? && b.value.prev.WithoutRecipientWallet?
      && b.value.prev.prev == SenderStage(lndNodePubkeys.value, flaggedPubkeys, senderWallet, invoice, uncheckedAmount)
      && b == ConstructPaymentFlowBuilder(lndNodePubkeys, flaggedPubkeys, senderWallet, invoice, uncheckedAmount,
                                          mid, hedgeBuyUsd, hedgeSellUsd, queries, other)
  {
  }

  /** For an intraledger payment, a paid invoice stops construction with
      `AlreadyPaidError` before the conversion stage is reached. */
  lemma PaidInvoiceStopsIntraLedgerConstruction(
    lndNodePubkeys: Result<seq<string>, PaymentError>, flaggedPubkeys: seq<string>, senderWallet: WalletDescriptor,
    invoice: LnInvoice, uncheckedAmount: Option<int>, mid: ConversionFns, hedgeBuyUsd: ConversionFns,
    hedgeSellUsd: ConversionFns, queries: BuilderQueries, repos: Repositories)
    requires lndNodePubkeys.Success?
    requires queries.isIntraLedger(SenderStage(lndNodePubkeys.value, flaggedPubkeys, senderWallet, invoice, uncheckedAmount))
    requires repos.findInvoiceByPaymentHash(invoice.paymentHash).Success?
    requires repos.findInvoiceByPaymentHash(invoice.paymentHash).value.paid
    ensures ConstructPaymentFlowBuilder(lndNodePubkeys, flaggedPubkeys, senderWallet, invoice, uncheckedAmount,
                                        mid, hedgeBuyUsd, hedgeSellUsd, queries, repos)
         == Failure(AlreadyPaidError(repos.findInvoiceByPaymentHash(invoice.paymentHash).value.paymentHash))
  {
  }

  /** Every successful construction went through the stages in order, with
      the caller's invoice, sender, and pricing functions, and starting from
      the node's pubkeys; the invoice stage is `withNoAmountInvoice` exactly
      when the unchecked amount is truthy, and the recipient stage attaches a
      recipient exactly when the sender-stage builder says intraledger. */
  lemma ConstructedBuilderStages(
    lndNodePubkeys: Result<seq<string>, PaymentError>, flaggedPubkeys: seq<string>, senderWallet: WalletDescriptor,
    invoice: LnInvoice, uncheckedAmount: Option<int>, mid: ConversionFns, hedgeBuyUsd: ConversionFns,
    hedgeSellUsd: ConversionFns, queries: BuilderQueries, repos: Repositories)
    requires ConstructPaymentFlowBuilder(lndNodePubkeys, flaggedPubkeys, senderWallet, invoice, uncheckedAmount,
                                         mid, hedgeBuyUsd, hedgeSellUsd, queries, repos).Success?
    ensures var b := ConstructPaymentFlowBuilder(lndNodePubkeys, flaggedPubkeys, senderWallet, invoice, uncheckedAmount,
                                                 mid, hedgeBuyUsd, hedgeSellUsd, queries, repos).value;
      && lndNodePubkeys.Success?
      && b.WithConversion? && b.mid == mid && b.hedgeBuyUsd == hedgeBuyUsd && b.hedgeSellUsd == hedgeSellUsd
      && (b.prev.WithRecipientWallet? || b.prev.WithoutRecipientWallet?)
      && b.prev.prev.WithSenderWallet? && b.prev.prev.senderWallet == senderWallet
      && (b.prev.WithRecipientWallet? <==> queries.isIntraLedger(b.prev.prev))
      && (b.prev.WithRecipientWallet? ==> RecipientDetailsFromInvoice(invoice, repos) == Success(b.prev.recipient))
      && b.prev.prev.prev.invoice == invoice
      && (b.prev.prev.prev.WithNoAmountInvoice? <==> UncheckedAmountTruthy(uncheckedAmount))
      && b.prev.prev.prev.prev == Start(lndNodePubkeys.value, flaggedPubkeys)
  {
  }

  // ---------------------------------------------------------------------------
  // checkLimitsBase: first error wins
  // ---------------------------------------------------------------------------

  /** Once some result has failed, whatever follows it cannot change the
      error `find` returns. */
  lemma {:induction false} FirstErrorUnaffectedBySuffix<T, E>(results: seq<Result<T, E>>, more: seq<Result<T, E>>)
    requires FindFirstError(results).Some?
    ensures FindFirstError(results + more) == FindFirstError(results)
  {
    if results[0].Failure? {
      assert (results + more)[0] == results[0];
    } else {
      assert (results + more)[1..] == results[1..] + more;
      FirstErrorUnaffectedBySuffix(results[1..], more);
    }
  }

  /** A prefix of successes is skipped: the error found is the first one after it. */
  lemma {:induction false} FirstErrorSkipsSuccessfulPrefix<T, E>(results: seq<Result<T, E>>, more: seq<Result<T, E>>)
    requires FindFirstError(results).None?
    ensures FindFirstError(results + more) == FindFirstError(more)
  {
    if |results| == 0 {
      assert results + more == more;
    } else {
      assert results[0].Success?;
      assert (results + more)[1..] == results[1..] + more;
      FirstErrorSkipsSuccessfulPrefix(results[1..], more);
    }
  }

  /** The first failure is unique, so the error `checkLimitsBase` reports is
      determined: it is that of the earliest wallet whose volume query failed. */
  lemma FirstFailureIsUnique<T, E>(results: seq<Result<T, E>>, k1: int, k2: int)
    requires IsFirstFailure(results, k1) && IsFirstFailure(results, k2)
    ensures k1 == k2
  {
  }

  /** The three limit checks differ only in the ledger volume query and the
      checker method: each is the intraledger check run on the other query and
      method, and a `checkLimitsBase` error reaches the caller before any
      checker method is consulted. */
  lemma LimitChecksDifferOnlyInCollaborators<R>(
    amount: UsdAmount, accountId: string, priceRatio: R, timestamp1Day: Result<nat, PaymentError>,
    repos: Repositories, accountLimitsFor: nat -> AccountLimits, ledger: LedgerVolumeFns, checker: AccountLimitsChecker<R>)
    ensures NewCheckTradeIntraAccountLimits(amount, accountId, priceRatio, timestamp1Day, repos, accountLimitsFor, ledger, checker)
         == NewCheckIntraledgerLimits(amount, accountId, priceRatio, timestamp1Day, repos, accountLimitsFor,
              ledger.(intraledgerVolume := ledger.tradeIntraAccountVolume),
              checker.(checkIntraledger := checker.checkTradeIntraAccount))
    ensures NewCheckWithdrawalLimits(amount, accountId, priceRatio, timestamp1Day, repos, accountLimitsFor, ledger, checker)
         == NewCheckIntraledgerLimits(amount, accountId, priceRatio, timestamp1Day, repos, accountLimitsFor,
              ledger.(intraledgerVolume := ledger.externalPaymentVolume),
              checker.(checkIntraledger := checker.checkWithdrawal))
  {
  }

  /** A failing `checkLimitsBase` short-circuits: the checker is never
      consulted, so any two checkers give the same answer. */
  lemma LimitBaseErrorShortCircuits<R>(
    amount: UsdAmount, accountId: string, priceRatio: R, timestamp1Day: Result<nat, PaymentError>,
    repos: Repositories, accountLimitsFor: nat -> AccountLimits, volumeFn: VolumeFn,
    check1: LimitCheckFn<R>, check2: LimitCheckFn<R>)
    requires CheckLimitsBase(accountId, timestamp1Day, repos, accountLimitsFor, volumeFn).Failure?
    ensures CheckLimitsWith(amount, accountId, priceRatio, timestamp1Day, repos, accountLimitsFor, volumeFn, check1)
         == CheckLimitsWith(amount, accountId, priceRatio, timestamp1Day, repos, accountLimitsFor, volumeFn, check2)
  {
  }
}
