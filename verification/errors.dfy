/** One constructor per error class the core returns. Errors produced by
    collaborators this model does not contain (repositories, the Lightning
    node, price services, the limits checker) travel as `External`, and are
    only ever passed along unchanged. */
module Errors {

  datatype PaymentError =
    | InvalidCurrencyForWalletError
      /** The message of the source's error interpolates the required total and the balance. */
    | InsufficientBalanceError(required: nat, available: nat)
    | RebalanceNeededError
    | InvalidLightningPaymentFlowBuilderStateError
    | IntraLedgerHashPresentInLnFlowError
    | LnHashPresentInIntraLedgerFlowError
    | InvalidOnChainPaymentFlowBuilderStateError
    | AlreadyPaidError(paymentHash: string)
    | InvalidZeroAmountPriceRatioInputError
    | ZeroAmountForUsdRecipientError
    | External(origin: string)
}
