/** Fee rules of the two fee-bearing transfer handlers.
    Money is modelled as `real`: the cash-out fee is a fraction of the amount,
    so balances are not whole numbers once a cash-out has happened. */
module Fees {

  /** Fee charged to the sender of a `send-money` transfer:
      a flat 5 above 100, nothing at or below 100. */
  function SendFee(amount: real): (fee: real)
    ensures fee == 5.0 || fee == 0.0
    ensures fee == 5.0 <==> amount > 100.0
  {
    if amount > 100.0 then 5.0 else 0.0
  }

  /** Fee charged to the customer of a `cash-out`: 1.5 percent of the amount,
      kept exact (no rounding to a minor unit). */
  function CashOutFee(amount: real): (fee: real)
    ensures fee * 200.0 == amount * 3.0
    ensures amount >= 0.0 ==> 0.0 <= fee <= amount
    ensures amount < 0.0 ==> amount < fee < 0.0
  {
    amount * 0.015
  }
}
