/** The decision logic of `src/app/payments/helpers.ts`. Everything the source
    reaches through a repository, the Lightning node, the ledger, a price
    service or a domain factory whose code is not part of this model is a
    function parameter here, so the
    contracts say which collaborator is consulted with which argument and what
    comes back. Asynchronous calls become plain sequential ones. */
module PaymentHelpers {
  import opened Wrappers
  import opened Amounts
  import opened Errors

  // ---------------------------------------------------------------------------
  // Collaborator shapes
  // ---------------------------------------------------------------------------

  type UsdFromBtcFn = BtcAmount -> Result<UsdAmount, PaymentError>
  type BtcFromUsdFn = UsdAmount -> Result<BtcAmount, PaymentError>

  /** A pair of price functions (`ConversionFns`): mid price or a dealer hedge price. */
  datatype ConversionFns = ConversionFns(usdFromBtc: UsdFromBtcFn, btcFromUsd: BtcFromUsdFn)

  /** A decoded Lightning invoice; only its payment hash is read here. */
  datatype LnInvoice = LnInvoice(paymentHash: string)

  /** The stored record of an invoice issued by one of this system's wallets. */
  datatype WalletInvoice = WalletInvoice(
    paymentHash: string,
    paid: bool,
    recipientWalletDescriptor: WalletDescriptor,
    pubkey: string,
    usdAmount: Option<UsdAmount>)

  datatype Account = Account(id: string, level: nat, username: Option<string>, kratosUserId: string)

  /** The repository lookups the decision logic uses. */
  datatype Repositories = Repositories(
    findInvoiceByPaymentHash: string -> Result<WalletInvoice, PaymentError>,
    findWalletById: string -> Result<WalletDescriptor, PaymentError>,
    findAccountById: string -> Result<Account, PaymentError>,
    listWalletsByAccountId: string -> Result<seq<WalletDescriptor>, PaymentError>)

  // ---------------------------------------------------------------------------
  // getPriceRatioForLimits
  // ---------------------------------------------------------------------------

  /** `getPriceRatioForLimits`. A BTC amount strictly below `minSats` (the
      configured MIN_SATS_FOR_PRICE_RATIO_PRECISION) is too small to give a
      precise ratio, so the ratio is built from `minSats` and its mid-price USD
      value instead; otherwise it is built from the payment amounts themselves.
      `priceRatio` is the `PriceRatio` factory, whose code is not part of this
      model. */
  function PriceRatioForLimits<R>(
    minSats: nat,
    paymentAmounts: AmountPair,
    usdFromBtcMid: UsdFromBtcFn,
    priceRatio: AmountPair -> Result<R, PaymentError>
  ): (r: Result<R, PaymentError>)
    ensures paymentAmounts.btc.amount >= minSats ==> r == priceRatio(paymentAmounts)
    ensures paymentAmounts.btc.amount < minSats ==>
      var mid := usdFromBtcMid(PaymentAmount(minSats, Btc));
      && (mid.Failure? ==> r == Failure(mid.error))
      && (mid.Success? ==> r == priceRatio(AmountPair(PaymentAmount(minSats, Btc), mid.value)))
  {
    if paymentAmounts.btc.amount < minSats then
      var btcForRatio: BtcAmount := PaymentAmount(minSats, Btc);
      var usdForRatio :- usdFromBtcMid(btcForRatio);
      priceRatio(AmountPair(btcForRatio, usdForRatio))
    else
      priceRatio(paymentAmounts)
  }

  // ---------------------------------------------------------------------------
  // recipientDetailsFromInvoice
  // ---------------------------------------------------------------------------

  datatype RecipientWalletDetails = RecipientWalletDetails(
    id: string,
    currency: Currency,
    accountId: string,
    pubkey: string,
    usdPaymentAmount: Option<UsdAmount>,
    username: Option<string>,
    userId: string)

  /** `recipientDetailsFromInvoice`: wallet invoice by payment hash, then the
      recipient wallet, then its account. A paid invoice stops the chain with
      `AlreadyPaidError` before any wallet or account lookup; every lookup error
      is returned unchanged. */
  function RecipientDetailsFromInvoice(invoice: LnInvoice, repos: Repositories): (r: Result<RecipientWalletDetails, PaymentError>)
    ensures var found := repos.findInvoiceByPaymentHash(invoice.paymentHash);
      && (found.Failure? ==> r == Failure(found.error))
      && (found.Success? && found.value.paid ==> r == Failure(AlreadyPaidError(found.value.paymentHash)))
      && (found.Success? && !found.value.paid ==>
            var wallet := repos.findWalletById(found.value.recipientWalletDescriptor.id);
            && (wallet.Failure? ==> r == Failure(wallet.error))
            && (wallet.Success? ==>
                  var account := repos.findAccountById(wallet.value.accountId);
                  && (account.Failure? ==> r == Failure(account.error))
                  && (account.Success? ==> r.Success?)))
    ensures r.Success? ==>
      var wi := repos.findInvoiceByPaymentHash(invoice.paymentHash).value;
      var account := repos.findAccountById(repos.findWalletById(wi.recipientWalletDescriptor.id).value.accountId).value;
      && !wi.paid
      && r.value == RecipientWalletDetails(
           wi.recipientWalletDescriptor.id, wi.recipientWalletDescriptor.currency, account.id,
           wi.pubkey, wi.usdAmount, account.username, account.kratosUserId)
  {
    var walletInvoice :- repos.findInvoiceByPaymentHash(invoice.paymentHash);
    if walletInvoice.paid then
      Failure(AlreadyPaidError(walletInvoice.paymentHash))
    else
      var recipientWallet :- repos.findWalletById(walletInvoice.recipientWalletDescriptor.id);
      var recipientAccount :- repos.findAccountById(recipientWallet.accountId);
      Success(RecipientWalletDetails(
        walletInvoice.recipientWalletDescriptor.id,
        walletInvoice.recipientWalletDescriptor.currency,
        recipientAccount.id,
        walletInvoice.pubkey,
        walletInvoice.usdAmount,
        recipientAccount.username,
        recipientAccount.kratosUserId))
  }

  // ---------------------------------------------------------------------------
  // constructPaymentFlowBuilder
  // ---------------------------------------------------------------------------

  /** The Lightning payment-flow builder, whose code is not part of this model,
      as the record of the stages it was driven through: each constructor is
      one stage call and keeps its arguments and the builder it was called on. */
  datatype LightningBuilder =
    | Start(localNodeIds: seq<string>, flaggedPubkeys: seq<string>)
    | WithInvoice(prev: LightningBuilder, invoice: LnInvoice)
    | WithNoAmountInvoice(prev: LightningBuilder, invoice: LnInvoice, uncheckedAmount: int)
    | WithSenderWallet(prev: LightningBuilder, senderWallet: WalletDescriptor)
    | WithRecipientWallet(prev: LightningBuilder, recipient: RecipientWalletDetails)
    | WithoutRecipientWallet(prev: LightningBuilder)
    | WithConversion(prev: LightningBuilder, mid: ConversionFns, hedgeBuyUsd: ConversionFns, hedgeSellUsd: ConversionFns)

  /** The builder's queries: `isIntraLedger()` after the sender stage, and
      `usdPaymentAmount()` after conversion. */
  datatype BuilderQueries = BuilderQueries(
    isIntraLedger: LightningBuilder -> bool,
    usdPaymentAmount: LightningBuilder -> Result<UsdAmount, PaymentError>)

  /** JavaScript truthiness of the optional `uncheckedAmount: number`. */
  predicate UncheckedAmountTruthy(uncheckedAmount: Option<int>) {
    uncheckedAmount.Some? && uncheckedAmount.value != 0
  }

  /** The invoice stage: a truthy unchecked amount selects `withNoAmountInvoice`
      (with that amount), while 0 or no amount select `withInvoice`. */
  function InvoiceStage(builder: LightningBuilder, invoice: LnInvoice, uncheckedAmount: Option<int>): (b: LightningBuilder)
    ensures b.WithNoAmountInvoice? || b.WithInvoice?
    ensures b.prev == builder && b.invoice == invoice
    ensures b.WithNoAmountInvoice? <==> UncheckedAmountTruthy(uncheckedAmount)
    ensures b.WithNoAmountInvoice? ==> Some(b.uncheckedAmount) == uncheckedAmount
  {
    if UncheckedAmountTruthy(uncheckedAmount) then
      WithNoAmountInvoice(builder, invoice, uncheckedAmount.value)
    else
      WithInvoice(builder, invoice)
  }

  /** The recipient stage: an intraledger payment attaches the recipient
      resolved from the invoice (or returns the lookup's error); any other
      payment goes on without a recipient wallet. */
  function RecipientStage(withSender: LightningBuilder, invoice: LnInvoice, queries: BuilderQueries, repos: Repositories): (r: Result<LightningBuilder, PaymentError>)
    ensures !queries.isIntraLedger(withSender) ==> r == Success(WithoutRecipientWallet(withSender))
    ensures queries.isIntraLedger(withSender) ==>
      var details := RecipientDetailsFromInvoice(invoice, repos);
      && (details.Failure? ==> r == Failure(details.error))
      && (details.Success? ==> r == Success(WithRecipientWallet(withSender, details.value)))
  {
    if queries.isIntraLedger(withSender) then
      var recipientDetails :- RecipientDetailsFromInvoice(invoice, repos);
      Success(WithRecipientWallet(withSender, recipientDetails))
    else
      Success(WithoutRecipientWallet(withSender))
  }

  /** The builder as it stands after the sender-wallet stage. */
  function SenderStage(localNodeIds: seq<string>, flaggedPubkeys: seq<string>, senderWallet: WalletDescriptor,
                       invoice: LnInvoice, uncheckedAmount: Option<int>): LightningBuilder
  {
    WithSenderWallet(InvoiceStage(Start(localNodeIds, flaggedPubkeys), invoice, uncheckedAmount), senderWallet)
  }

  /** `constructPaymentFlowBuilder`. The Lightning service's error (no node
      available) is returned first; the builder is then driven through the
      invoice, sender, recipient and conversion stages. After conversion, a
      zero-amount price-ratio error from `usdPaymentAmount()` becomes
      `ZeroAmountForUsdRecipientError` exactly when the payment is
      intraledger; otherwise the converted builder is returned, whatever that
      query answers. */
  function ConstructPaymentFlowBuilder(
    lndNodePubkeys: Result<seq<string>, PaymentError>,
    flaggedPubkeys: seq<string>,
    senderWallet: WalletDescriptor,
    invoice: LnInvoice,
    uncheckedAmount: Option<int>,
    // the source always passes the fixed mid-price pair here; it is a parameter only because those functions are collaborators
    mid: ConversionFns,
    hedgeBuyUsd: ConversionFns,
    hedgeSellUsd: ConversionFns,
    queries: BuilderQueries,
    repos: Repositories
  ): (r: Result<LightningBuilder, PaymentError>)
    ensures lndNodePubkeys.Failure? ==> r == Failure(lndNodePubkeys.error)
    ensures lndNodePubkeys.Success? ==>
      var withSender := SenderStage(lndNodePubkeys.value, flaggedPubkeys, senderWallet, invoice, uncheckedAmount);
      var afterRecipient := RecipientStage(withSender, invoice, queries, repos);
      && (afterRecipient.Failure? ==> r == Failure(afterRecipient.error))
      && (afterRecipient.Success? ==>
            var converted := WithConversion(afterRecipient.value, mid, hedgeBuyUsd, hedgeSellUsd);
            && (r == Failure(ZeroAmountForUsdRecipientError) <==>
                  queries.usdPaymentAmount(converted) == Failure(InvalidZeroAmountPriceRatioInputError)
                  && queries.isIntraLedger(withSender))
            && (r != Failure(ZeroAmountForUsdRecipientError) ==> r == Success(converted)))
  {
    var localNodeIds :- lndNodePubkeys;
    var withInvoice := InvoiceStage(Start(localNodeIds, flaggedPubkeys), invoice, uncheckedAmount);
    var withSender := WithSenderWallet(withInvoice, senderWallet);
    var afterRecipient :- RecipientStage(withSender, invoice, queries, repos);
    var withConversion := WithConversion(afterRecipient, mid, hedgeBuyUsd, hedgeSellUsd);
    var check := queries.usdPaymentAmount(withConversion);
    if check.Failure? && check.error.InvalidZeroAmountPriceRatioInputError? && queries.isIntraLedger(withSender) then
      Failure(ZeroAmountForUsdRecipientError)
    else
      Success(withConversion)
  }

  // ---------------------------------------------------------------------------
  // checkLimitsBase and the three limit checks
  // ---------------------------------------------------------------------------

  /** A wallet's trailing-window ledger volume, in the wallet's base currency. */
  datatype TxBaseVolume = TxBaseVolume(outgoingBaseAmount: PaymentAmount, incomingBaseAmount: PaymentAmount)

  /** A ledger volume query: wallet and start timestamp to that wallet's volume. */
  type VolumeFn = (WalletDescriptor, nat) -> Result<TxBaseVolume, PaymentError>

  /** Per-account-level USD ceilings over the trailing day. */
  datatype AccountLimits = AccountLimits(intraLedgerLimit: nat, withdrawalLimit: nat, tradeIntraAccountLimit: nat)

  datatype VolumesAndLimits = VolumesAndLimits(accountLimits: AccountLimits, walletVolumes: seq<TxBaseVolume>)

  /** Index `k` holds the first failure of `results`. */
  predicate IsFirstFailure<T, E>(results: seq<Result<T, E>>, k: int) {
    && 0 <= k < |results|
    && results[k].Failure?
    && forall j :: 0 <= j < k ==> results[j].Success?
  }

  /** The volume query issued for every wallet of the account, in wallet order
      (the `Promise.all` over `wallets.map`). */
  function VolumeResults(wallets: seq<WalletDescriptor>, timestamp: nat, volumeFn: VolumeFn): (rs: seq<Result<TxBaseVolume, PaymentError>>)
    ensures |rs| == |wallets|
    ensures forall i :: 0 <= i < |wallets| ==> rs[i] == volumeFn(wallets[i], timestamp)
  {
    seq(|wallets|, i requires 0 <= i < |wallets| => volumeFn(wallets[i], timestamp))
  }

  /** `results.find(vol => vol instanceof Error)`: the error of the first failed
      result, or nothing when all succeeded. */
  function FindFirstError<T, E>(results: seq<Result<T, E>>): (r: Option<E>)
    ensures r.None? <==> forall i :: 0 <= i < |results| ==> results[i].Success?
    ensures r.Some? ==> exists k :: IsFirstFailure(results, k) && results[k].error == r.value
  {
    if |results| == 0 then None
    else if results[0].Failure? then
      assert IsFirstFailure(results, 0);
      Some(results[0].error)
    else
      var rest := FindFirstError(results[1..]);
      assert rest.Some? ==> exists k :: IsFirstFailure(results, k) && results[k].error == rest.value by {
        if rest.Some? {
          var k :| IsFirstFailure(results[1..], k) && results[1..][k].error == rest.value;
          assert IsFirstFailure(results, k + 1);
        }
      }
      rest
  }

  /** The successful values, in order, once no result is a failure. */
  function SuccessValues<T, E>(results: seq<Result<T, E>>): (vs: seq<T>)
    requires forall i :: 0 <= i < |results| ==> results[i].Success?
    ensures |vs| == |results|
    ensures forall i :: 0 <= i < |results| ==> results[i] == Success(vs[i])
  {
    if |results| == 0 then [] else [results[0].value] + SuccessValues(results[1..])
  }

  /** `checkLimitsBase`: the day-ago timestamp, the account and its wallets
      are fetched in turn, each error returned as is; then a volume is queried
      for every wallet of the account (not only the sender's), the first
      failing one in wallet order wins, and otherwise all volumes come back
      with the limits of the account's level. `timestamp1Day` is the clock's
      answer and `accountLimitsFor` the configured limits per level. */
  function CheckLimitsBase(
    accountId: string,
    timestamp1Day: Result<nat, PaymentError>,
    repos: Repositories,
    accountLimitsFor: nat -> AccountLimits,
    volumeFn: VolumeFn
  ): (r: Result<VolumesAndLimits, PaymentError>)
    ensures timestamp1Day.Failure? ==> r == Failure(timestamp1Day.error)
    ensures timestamp1Day.Success? && repos.findAccountById(accountId).Failure? ==>
      r == Failure(repos.findAccountById(accountId).error)
    ensures timestamp1Day.Success? && repos.findAccountById(accountId).Success?
            && repos.listWalletsByAccountId(accountId).Failure? ==>
      r == Failure(repos.listWalletsByAccountId(accountId).error)
    ensures timestamp1Day.Success? && repos.findAccountById(accountId).Success?
            && repos.listWalletsByAccountId(accountId).Success? ==>
      var wallets := repos.listWalletsByAccountId(accountId).value;
      && (r.Failure? ==>
            exists k :: IsFirstFailure(VolumeResults(wallets, timestamp1Day.value, volumeFn), k)
                        && r == Failure(volumeFn(wallets[k], timestamp1Day.value).error))
      && (r.Success? <==> forall i :: 0 <= i < |wallets| ==> volumeFn(wallets[i], timestamp1Day.value).Success?)
      && (r.Success? ==>
            && r.value.accountLimits == accountLimitsFor(repos.findAccountById(accountId).value.level)
            && |r.value.walletVolumes| == |wallets|
            && forall i :: 0 <= i < |wallets| ==>
                 volumeFn(wallets[i], timestamp1Day.value) == Success(r.value.walletVolumes[i]))
  {
    var timestamp :- timestamp1Day;
    var account :- repos.findAccountById(accountId);
    var wallets :- repos.listWalletsByAccountId(accountId);
    var walletVolumesWithErrors := VolumeResults(wallets, timestamp, volumeFn);
    var walletVolError := FindFirstError(walletVolumesWithErrors);
    if walletVolError.Some? then
      Failure(walletVolError.value)
    else
      Success(VolumesAndLimits(accountLimitsFor(account.level), SuccessValues(walletVolumesWithErrors)))
  }

  /** The three ledger volume queries, one per limit category. */
  datatype LedgerVolumeFns = LedgerVolumeFns(
    intraledgerVolume: VolumeFn,
    tradeIntraAccountVolume: VolumeFn,
    externalPaymentVolume: VolumeFn)

  /** One check of the `AccountLimitsChecker` (whose code is not part of this
      model), already bound to the
      account's limits and the price ratio: proposed amount and wallet volumes
      to `Pass` or a limit error. */
  type LimitCheckFn<!R> = (AccountLimits, R, UsdAmount, seq<TxBaseVolume>) -> Outcome<PaymentError>

  datatype AccountLimitsChecker<!R> = AccountLimitsChecker(
    checkIntraledger: LimitCheckFn<R>,
    checkTradeIntraAccount: LimitCheckFn<R>,
    checkWithdrawal: LimitCheckFn<R>)

  /** The shape all three limit checks share: an error from `checkLimitsBase`
      is returned before the checker runs; otherwise the checker decides on
      the account's limits and the volumes of all its wallets. */
  function CheckLimitsWith<R>(
    amount: UsdAmount,
    accountId: string,
    priceRatio: R,
    timestamp1Day: Result<nat, PaymentError>,
    repos: Repositories,
    accountLimitsFor: nat -> AccountLimits,
    volumeFn: VolumeFn,
    check: LimitCheckFn<R>
  ): (r: Outcome<PaymentError>)
    ensures var base := CheckLimitsBase(accountId, timestamp1Day, repos, accountLimitsFor, volumeFn);
      && (base.Failure? ==> r == Fail(base.error))
      && (base.Success? ==> r == check(base.value.accountLimits, priceRatio, amount, base.value.walletVolumes))
  {
    var volumesAndLimits := CheckLimitsBase(accountId, timestamp1Day, repos, accountLimitsFor, volumeFn);
    if volumesAndLimits.Failure? then
      Fail(volumesAndLimits.error)
    else
      check(volumesAndLimits.value.accountLimits, priceRatio, amount, volumesAndLimits.value.walletVolumes)
  }

  /** `newCheckIntraledgerLimits`: intraledger volumes, intraledger check. */
  function NewCheckIntraledgerLimits<R>(
    amount: UsdAmount, accountId: string, priceRatio: R, timestamp1Day: Result<nat, PaymentError>,
    repos: Repositories, accountLimitsFor: nat -> AccountLimits, ledger: LedgerVolumeFns, checker: AccountLimitsChecker<R>
  ): (r: Outcome<PaymentError>)
    ensures var base := CheckLimitsBase(accountId, timestamp1Day, repos, accountLimitsFor, ledger.intraledgerVolume);
      && (base.Failure? ==> r == Fail(base.error))
      && (base.Success? ==> r == checker.checkIntraledger(base.value.accountLimits, priceRatio, amount, base.value.walletVolumes))
  {
    CheckLimitsWith(amount, accountId, priceRatio, timestamp1Day, repos, accountLimitsFor,
                    ledger.intraledgerVolume, checker.checkIntraledger)
  }

  /** `newCheckTradeIntraAccountLimits`: trade-intra-account volumes and check. */
  function NewCheckTradeIntraAccountLimits<R>(
    amount: UsdAmount, accountId: string, priceRatio: R, timestamp1Day: Result<nat, PaymentError>,
    repos: Repositories, accountLimitsFor: nat -> AccountLimits, ledger: LedgerVolumeFns, checker: AccountLimitsChecker<R>
  ): (r: Outcome<PaymentError>)
    ensures var base := CheckLimitsBase(accountId, timestamp1Day, repos, accountLimitsFor, ledger.tradeIntraAccountVolume);
      && (base.Failure? ==> r == Fail(base.error))
      && (base.Success? ==> r == checker.checkTradeIntraAccount(base.value.accountLimits, priceRatio, amount, base.value.walletVolumes))
  {
    CheckLimitsWith(amount, accountId, priceRatio, timestamp1Day, repos, accountLimitsFor,
                    ledger.tradeIntraAccountVolume, checker.checkTradeIntraAccount)
  }

  /** `newCheckWithdrawalLimits`: external-payment volumes, withdrawal check. */
  function NewCheckWithdrawalLimits<R>(
    amount: UsdAmount, accountId: string, priceRatio: R, timestamp1Day: Result<nat, PaymentError>,
    repos: Repositories, accountLimitsFor: nat -> AccountLimits, ledger: LedgerVolumeFns, checker: AccountLimitsChecker<R>
  ): (r: Outcome<PaymentError>)
    ensures var base := CheckLimitsBase(accountId, timestamp1Day, repos, accountLimitsFor, ledger.externalPaymentVolume);
      && (base.Failure? ==> r == Fail(base.error))
      && (base.Success? ==> r == checker.checkWithdrawal(base.value.accountLimits, priceRatio, amount, base.value.walletVolumes))
  {
    CheckLimitsWith(amount, accountId, priceRatio, timestamp1Day, repos, accountLimitsFor,
                    ledger.externalPaymentVolume, checker.checkWithdrawal)
  }
}
