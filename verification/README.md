# Payment flow of a custodial Bitcoin/Lightning wallet, in Dafny

This project models the payment-flow core of a custodial Bitcoin/Lightning wallet backend. Every wallet holds
one currency: BTC in satoshis or USD in cents. A payment is described by an immutable *payment flow*. It
carries the payment amount and the protocol fee in both currencies, and, depending on the kind of payment:

- a Lightning payment hash or an intraledger hash;
- or, for on-chain sends, an address, bank fees and a miner fee.

Callers query the flow for the fee in the sender's currency and the totals, and run balance checks against it.
They also read the cached route (dropped when stale) and read the payment hash or address, each accessor with
its own error.

Around the flow sits the application's decision logic:

- the precision floor used when building a price ratio for limit checks;
- the already-paid guard when resolving an intraledger recipient from an invoice;
- the branching and error mapping while the Lightning flow builder is driven;
- the first-error-wins collection of per-wallet ledger volumes for the three account-limit checks.

Modules:

- `Wrappers` (`wrappers.dfy`): `Option`, `Result`, `Outcome` (the source's `true | Error`), and JavaScript
  truthiness of optional strings.
- `Amounts` (`amounts.dfy`): the currency-tagged `PaymentAmount`, the `BtcAmount`/`UsdAmount` subset types,
  same-currency `Add`, and `WalletDescriptor`.
- `Errors` (`errors.dfy`): one constructor per error class. Errors from collaborators travel as `External`.
- `PaymentFlow` (`payment_flow.dfy`): the flow record (`FlowCommon`, `LightningFlow`, `OnChainFlow`) and its
  operations.
- `PaymentFlowProperties` (`payment_flow_properties.dfy`): lemmas relating those operations, and the unit
  tests' boundary cases.
- `PaymentHelpers` (`payment_helpers.dfy`): the decision logic of the application helpers. Collaborators are
  function parameters.
- `PaymentHelpersProperties` (`payment_helpers_properties.dfy`): which collaborator can influence which
  answer, and how errors are ordered.

Collaborators whose code is not part of this model are function parameters. No arithmetic is invented for
them. They are:

- the route validator;
- the `PriceRatio` factory;
- the mid-price function;
- the wallet-invoice, wallet and account repositories;
- the ledger volume queries;
- the account-limits checker;
- the clock's "one day ago" timestamp;
- the per-level limits configuration.

The one piece of arithmetic assumed rather than passed in is `AmountCalculator().add`. `Add` takes it to be exact
addition in one currency (see "## Left out").

The Lightning flow builder is modelled by `LightningBuilder`, a datatype that records each stage call with its
arguments. A result therefore states exactly which stages were called, with what, and in which order. The
builder's own queries `isIntraLedger()` and `usdPaymentAmount()` are uninterpreted parameters.

Truthiness follows the source:

- A hash, wallet id or account id counts as present when it is set and not the empty string.
- The recipient currency, a cached route and a miner fee count as present whenever they are set.
- The optional `uncheckedAmount` counts as present when it is set and non-zero.
- `addressForFlow` compares with `undefined`, so an empty address string is returned as an address.

Behaviour of the source worth noting:

- The zero-amount error is mapped to `ZeroAmountForUsdRecipientError` exactly when the payment is
  intraledger. The recipient's currency is not consulted (`src/app/payments/helpers.ts:76-84`).
- Any other answer of `usdPaymentAmount()`, error or not, leaves the converted builder as the result.
- The already-paid guard sits in the recipient lookup, before the wallet and account lookups. It is not a
  builder stage.
- The on-chain availability check counts a missing miner fee as zero.

`PaymentAmounts`, `SenderWalletDescriptor` and `BankFees` are plain accessors. Each has its own row below, and
a lemma relates each of them to the totals or the checks.

## Model

| member | source | states |
|---|---|---|
| PaymentFlow.ProtocolFeeInSenderWalletCurrency | src/domain/payments/payment-flow.ts:21-25 | The fee is in the sender wallet's currency and is one of the two stored fees, so it is never a conversion. |
| PaymentFlow.PaymentAmounts | src/domain/payments/payment-flow.ts:27-30 | The fee-less payment amounts, one per currency, as stored. |
| PaymentFlow.TotalAmountsForPayment | src/domain/payments/payment-flow.ts:32-38 | BTC total = BTC amount + BTC protocol fee, and USD total = USD amount + USD protocol fee, each in its own currency. |
| PaymentFlow.CheckBalanceForSend | src/domain/payments/payment-flow.ts:97-118 | A wrong-currency balance fails with `InvalidCurrencyForWalletError` whatever the amounts. Otherwise the check passes iff balance >= amount + fee in that currency, and a shortfall gives `InsufficientBalanceError` carrying the required total and the balance. |
| PaymentFlow.GetRouteDetails | src/domain/payments/payment-flow.ts:40-61 | A route is returned iff one is cached and the validator accepts it for the BTC amount; it is then the cached route. The outgoing pubkey is present only with a route. No error is possible. |
| PaymentFlow.RecipientWalletDescriptor | src/domain/payments/payment-flow.ts:88-95 | Defined iff recipient wallet id, currency and account id are all present (ids non-empty). When defined it holds exactly those three fields. |
| PaymentFlow.GetRecipientDetails | src/domain/payments/payment-flow.ts:63-80 | The descriptor built here equals `recipientWalletDescriptor`. Pubkey, username and user id pass through unchanged. |
| PaymentFlow.SenderWalletDescriptor | src/domain/payments/payment-flow.ts:82-86 | The sender's wallet id and account id, with the currency that the fee selection uses. |
| PaymentFlow.PaymentHashForFlow | src/domain/payments/payment-flow.ts:137-147 | Both or neither hash present gives `InvalidLightningPaymentFlowBuilderStateError`. Only the intraledger hash gives `IntraLedgerHashPresentInLnFlowError`. Success iff only the payment hash is present, and it returns that hash. |
| PaymentFlow.IntraLedgerHashForFlow | src/domain/payments/payment-flow.ts:149-159 | The mirror image: only the payment hash gives `LnHashPresentInIntraLedgerFlowError`. Success iff only the intraledger hash is present, and it returns that hash. |
| PaymentFlow.AddressForFlow | src/domain/payments/payment-flow.ts:174-180 | Fails with `InvalidOnChainPaymentFlowBuilderStateError` iff the address is undefined; otherwise returns the address. |
| PaymentFlow.BankFees | src/domain/payments/payment-flow.ts:182-184 | The stored BTC and USD bank fees, unchanged. |
| PaymentFlow.MinerFeeOrZero | src/domain/payments/payment-flow.ts:189-192 | A missing miner fee counts as 0 sats; a present one is used as stored. |
| PaymentFlow.CheckOnChainAvailableBalanceForSend | src/domain/payments/payment-flow.ts:186-199 | Passes iff balance >= BTC amount + (miner fee or 0), with no protocol fee. Every failure is `RebalanceNeededError`. |
| PaymentFlowProperties.PaymentAmountsPlusFeesAreTotals | src/domain/payments/payment-flow.ts:27-38 | Each total is the fee-less payment amount plus that currency's protocol fee. In the sender's currency this is the amount the balance check requires. |
| PaymentFlowProperties.CheckBalanceMatchesTotals | src/domain/payments/payment-flow.ts:103-117 | The balance check passes iff the currency matches and the balance covers `totalAmountsForPayment` in that currency. That total is the amount plus the selected protocol fee. |
| PaymentFlowProperties.CheckBalanceBoundaries | test/unit/payments/payment-flow.spec.ts:50-86 | Total + 1 passes and exactly the total passes. Total − 1 fails with `InsufficientBalanceError`. The wrong currency fails with `InvalidCurrencyForWalletError` even when the amount is enough. |
| PaymentFlowProperties.CheckBalanceMonotone | src/domain/payments/payment-flow.ts:109-117 | A larger balance in the same currency keeps a passing check passing. |
| PaymentFlowProperties.CheckBalanceScenario | test/unit/payments/payment-flow.spec.ts:15-74 | BTC sender, 20,000 sats plus a 400-sat fee: 20,400 sats pass and 20,399 fail with the required 20,400 reported. |
| PaymentFlowProperties.SenderDescriptorAgreesWithChecks | src/domain/payments/payment-flow.ts:82-86 | The sender descriptor holds the sender's id, account and currency. The selected fee is in that currency, and a balance in that currency is never rejected for its currency. |
| PaymentFlowProperties.StaleRouteIsDropped | src/domain/payments/payment-flow.ts:44-55 | A cached route the validator rejects behaves exactly like no cached route: no route, no outgoing node, no error. |
| PaymentFlowProperties.ValidRouteIsKept | src/domain/payments/payment-flow.ts:44-60 | An accepted cached route is returned with the stored outgoing node pubkey. |
| PaymentFlowProperties.ExactlyOneHashAccessorSucceeds | src/domain/payments/payment-flow.ts:137-159 | The two hash accessors never both succeed, and one succeeds iff exactly one hash is present; the other then reports its specific error. With both or neither present, both report the builder-state error. |
| PaymentFlowProperties.BankFeesExcludedFromChecks | src/domain/payments/payment-flow.ts:182-184 | `bankFees` returns the stored fees. They affect neither the totals, nor the balance check, nor the on-chain check. |
| PaymentFlowProperties.OnChainCheckIgnoresProtocolFee | src/domain/payments/payment-flow.ts:186-199 | Changing the protocol fees never changes the on-chain availability check. |
| PaymentFlowProperties.OnChainBoundariesWithoutMinerFee | test/unit/payments/payment-flow.spec.ts:105-135 | With no miner fee, BTC amount + 1 and exactly the amount pass; amount − 1 fails with `RebalanceNeededError`. |
| PaymentFlowProperties.OnChainShortfallIsUninformative | src/domain/payments/payment-flow.ts:194-196 | Any two failing on-chain checks return the identical error, so the size of a shortfall is not revealed. |
| PaymentHelpers.PriceRatioForLimits | src/app/payments/helpers.ts:248-272 | If btc >= floor, the answer is the ratio of the unchanged input. If btc < floor, it is the ratio of (floor sats, mid price of floor sats), and a mid-price error is returned as is. |
| PaymentHelpersProperties.BelowFloorInputsAgree | src/app/payments/helpers.ts:254-268 | Any two inputs below the floor give the same answer. |
| PaymentHelpersProperties.BelowFloorEqualsFloorPair | src/app/payments/helpers.ts:252-270 | A below-floor input gives the same ratio as passing the pair (floor, mid price of floor) directly. |
| PaymentHelpersProperties.AboveFloorIgnoresMidPrice | src/app/payments/helpers.ts:254-270 | At or above the floor, the mid-price function cannot change the answer. |
| PaymentHelpersProperties.MidPriceErrorSkipsRatio | src/app/payments/helpers.ts:259-262 | Below the floor, a mid-price error is the answer and the ratio factory cannot change it. |
| PaymentHelpers.RecipientDetailsFromInvoice | src/app/payments/helpers.ts:87-133 | Lookup order: invoice, then wallet, then account. Each lookup error is returned unchanged, and a paid invoice gives `AlreadyPaidError` with its hash. On success the details combine the invoice's wallet id, currency, pubkey and USD amount with the account's id, username and user id. |
| PaymentHelpersProperties.PaidGuardPrecedesLookups | src/app/payments/helpers.ts:102-116 | For a paid invoice the answer is `AlreadyPaidError` whatever the wallet and account lookups would return. |
| PaymentHelpers.InvoiceStage | src/app/payments/helpers.ts:51-56 | `withNoAmountInvoice` (carrying the amount) is used iff the unchecked amount is truthy; 0 or no amount use `withInvoice`. |
| PaymentHelpers.RecipientStage | src/app/payments/helpers.ts:60-68 | Intraledger means `withRecipientWallet` with the looked-up details, or the lookup's error. Otherwise it is `withoutRecipientWallet`. |
| PaymentHelpers.ConstructPaymentFlowBuilder | src/app/payments/helpers.ts:29-85 | A node-service error comes first and recipient errors propagate. After conversion, the result is `ZeroAmountForUsdRecipientError` iff `usdPaymentAmount()` is the zero-amount ratio error and the payment is intraledger. Otherwise it is the converted builder. |
| PaymentHelpersProperties.ExternalPaymentReturnsConvertedBuilder | src/app/payments/helpers.ts:61-84 | A non-intraledger payment always yields the converted builder without a recipient wallet, independent of the repositories and of `usdPaymentAmount()`. |
| PaymentHelpersProperties.PaidInvoiceStopsIntraLedgerConstruction | src/app/payments/helpers.ts:61-65 | For an intraledger payment with a paid invoice, construction fails with `AlreadyPaidError` before conversion. |
| PaymentHelpersProperties.ConstructedBuilderStages | src/app/payments/helpers.ts:45-74 | A successful construction is start → invoice → sender → recipient → conversion, with the caller's arguments; `mid` stands for the fixed mid-price conversion pair the source always passes. The no-amount stage is used iff the amount is truthy; the recipient stage is used iff intraledger. |
| PaymentHelpers.VolumeResults | src/app/payments/helpers.ts:151-158 | One volume query per wallet of the account, in wallet order, with the day-ago timestamp. |
| PaymentHelpers.FindFirstError | src/app/payments/helpers.ts:159-160 | No error iff every result succeeded. Otherwise it returns the error of the first failed result. |
| PaymentHelpers.SuccessValues | src/app/payments/helpers.ts:163-165 | When all results succeeded, the values in order, one per result. |
| PaymentHelpers.CheckLimitsBase | src/app/payments/helpers.ts:135-171 | Timestamp, account and wallet-list errors are returned in that order. Then the first failing wallet volume wins. Otherwise every wallet's volume is returned, in order, with the limits for the account's level. |
| PaymentHelpersProperties.FirstErrorUnaffectedBySuffix | src/app/payments/helpers.ts:159-160 | Once a result has failed, later results cannot change the error reported. |
| PaymentHelpersProperties.FirstErrorSkipsSuccessfulPrefix | src/app/payments/helpers.ts:159-160 | Successful earlier results are skipped: the error reported is the first one after them. |
| PaymentHelpersProperties.FirstFailureIsUnique | src/app/payments/helpers.ts:159-160 | The first failure has one index, so the error reported is determined. |
| PaymentHelpers.CheckLimitsWith | src/app/payments/helpers.ts:182-195 | A `checkLimitsBase` error is returned; otherwise the checker decides on the account limits, ratio, amount and all wallet volumes. |
| PaymentHelpers.NewCheckIntraledgerLimits | src/app/payments/helpers.ts:173-196 | The intraledger volume query feeds the base, and the checker's intraledger method decides. |
| PaymentHelpers.NewCheckTradeIntraAccountLimits | src/app/payments/helpers.ts:198-221 | The trade-intra-account volume query feeds the base, and the checker's trade-intra-account method decides. |
| PaymentHelpers.NewCheckWithdrawalLimits | src/app/payments/helpers.ts:223-246 | The external-payment volume query feeds the base, and the checker's withdrawal method decides. |
| PaymentHelpersProperties.LimitChecksDifferOnlyInCollaborators | src/app/payments/helpers.ts:173-246 | The trade and withdrawal checks equal the intraledger check run with their own volume query and checker method. |
| PaymentHelpersProperties.LimitBaseErrorShortCircuits | src/app/payments/helpers.ts:186 | When `checkLimitsBase` fails, no checker can change the answer. |

## Left out

- Route validation, `PriceRatio` and its conversions, the limits checker's threshold arithmetic, and the flow builders' own stage logic are not part of this model. They are parameters, and no property of their arithmetic is claimed.
- `AmountCalculator().add` is not part of this model. `Add` takes it to be exact addition of unbounded non-negative integers in one currency, with no overflow or rounding.
- The definition of MIN_SATS_FOR_PRICE_RATIO_PRECISION is not part of this model, so the floor is the parameter `minSats`.
- I/O and clocks are parameters: the Lightning node service (its pubkey list or its error), the repositories, the ledger volume queries, and `timestampDaysAgo(ONE_DAY)`.
- Tracing and span recording are no-ops. This covers the warning recorded for a stale route and the span wrapping `getPriceRatioForLimits`.
- `InsufficientBalanceError` carries the required total and the balance instead of the formatted message; the unit word is implied by the currency.
- `async`/`Promise` structure is modelled as sequential calls. `Promise.all` over the wallets becomes one query per wallet, in order.
- Flow-state fields that no modelled operation reads are not modelled: settlement and initiation method, creation time, description, skip-probe flag and input amount. The source spreads them into the returned flow unchanged.
- `uncheckedAmount` is an integer. A JavaScript `NaN` (falsy) is not modelled.
- `PaymentFlow` and `OnChainPaymentFlow` as constructors are the datatypes themselves. The source's `PaymentFlow` is typed to allow an error but never returns one.
- The on-chain builder stages (`withAddress`, `withAmount`, `withMinerFee`/`withoutMinerFee`) and the miner-fee estimate are outside the modelled files.
- The price-ratio round trip (`btcFromUsd(usdFromBtc(x))` within one rounding unit) and the summing of wallet volumes against a threshold happen inside `PriceRatio` and the limits checker. Neither is part of this model, so neither property is stated.
- `PriceRatioForLimits` uses the mid price for the floor substitution even when the payment itself was converted at a hedge price. This is modelled as written; no pricing basis is claimed beyond it.
