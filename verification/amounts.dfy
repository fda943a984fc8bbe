/** Currency-tagged amounts: satoshis for Btc, cents for Usd. Amounts of
    different currencies are never added or compared directly. */
module Amounts {

  datatype Currency = Btc | Usd

  datatype PaymentAmount = PaymentAmount(amount: nat, currency: Currency)

  type BtcAmount = a: PaymentAmount | a.currency == Btc witness PaymentAmount(0, Btc)

  type UsdAmount = a: PaymentAmount | a.currency == Usd witness PaymentAmount(0, Usd)

  const ZeroSats: BtcAmount := PaymentAmount(0, Btc)

  /** The source's `PaymentAmountInAllCurrencies`: one amount in each currency. */
  datatype AmountPair = AmountPair(btc: BtcAmount, usd: UsdAmount)

  /** `AmountCalculator().add`, defined only between operands of one currency. */
  function Add(a: PaymentAmount, b: PaymentAmount): (r: PaymentAmount)
    requires a.currency == b.currency
    ensures r.currency == a.currency
    ensures r == PaymentAmount(a.amount + b.amount, a.currency)
  {
    PaymentAmount(a.amount + b.amount, a.currency)
  }

  /** Identity and currency of a wallet, without its balance. */
  datatype WalletDescriptor = WalletDescriptor(id: string, currency: Currency, accountId: string)
}
