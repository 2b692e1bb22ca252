/**
 * What the payment routes receive and answer: the request bodies, the validation rules
 * that both checkout routes declare (backend/server/routes/payment.js and
 * server/routes/payments.js carry identical copies), and the conversion of a decimal
 * amount to the processor's minor units.
 */
module Requests {
  import opened Wrappers
  import Text

  /** An HTTP answer reduced to what the handlers decide: 200 with data, or an error status. */
  datatype Response<T> = Ok(data: T) | Err(code: nat)

  /**
   * The outcome of a call into the payment processor, whose behaviour is an input of the
   * model: it returned a value, or it threw (the handler's catch then answers 500).
   */
  datatype Call<T> = Returned(value: T) | Threw

  // The processor's event types the webhooks dispatch on.
  const SessionCompleted := "checkout.session.completed"
  const SessionExpired := "checkout.session.expired"
  const IntentSucceeded := "payment_intent.succeeded"
  const IntentFailed := "payment_intent.payment_failed"

  /** The currencies the validators accept (lower-case, as sent by the client). */
  const SupportedCurrencies: seq<string> := ["usd", "eur", "gbp", "aud", "cny", "egp"]

  /**
   * One cart entry as posted by the client. `breed` is "" when the client sent none
   * (the handlers read `item.breed || ''`); `quantity` is None when it was left out.
   */
  datatype CartItem = CartItem(id: string, name: string, category: string, breed: string,
                               quantity: Option<int>, price: real)

  /** The body of `create-checkout-session` and of `create-payment-intent`. */
  datatype OrderRequest = OrderRequest(amount: real, currency: string, customerName: string,
                                       customerEmail: string, cartItems: seq<CartItem>)

  /** The five express-validator rules: any failing rule makes the handler answer 400. */
  predicate ValidOrderRequest(req: OrderRequest)
  {
    && req.amount >= 0.50
    && req.currency in SupportedCurrencies
    && |Text.Trim(req.customerName)| >= 2
    && Text.IsEmail(req.customerEmail)
    && |req.cartItems| >= 1
  }

  /** `item.quantity || 1`: a missing or zero quantity counts as one. */
  function QuantityOrOne(q: Option<int>): (r: int)
    ensures r != 0
    ensures q.Some? && q.value != 0 ==> r == q.value
    ensures q.None? || q.value == 0 ==> r == 1
  {
    if q.Some? && q.value != 0 then q.value else 1
  }

  /** `Math.round`: the nearest integer, halves rounded up. */
  function RoundHalfUp(x: real): (r: int)
    ensures r as real - 0.5 <= x < r as real + 0.5
  {
    (x + 0.5).Floor
  }

  /** `Math.round(amount * 100)`: a decimal amount in the processor's minor units (cents). */
  function MinorUnits(amount: real): int
  {
    RoundHalfUp(amount * 100.0)
  }

  /** The decimal amount of a whole number of cents. */
  function CentsToAmount(cents: int): real
  {
    cents as real / 100.0
  }

  /** An amount that is a whole number of cents converts to exactly that many cents. */
  lemma MinorUnitsOfCents(cents: int)
    ensures MinorUnits(CentsToAmount(cents)) == cents
  {
    assert CentsToAmount(cents) * 100.0 == cents as real;
  }

  /** The conversion is never more than half a cent away from the decimal amount. */
  lemma MinorUnitsClose(amount: real)
    ensures -0.5 <= MinorUnits(amount) as real - amount * 100.0 <= 0.5
  {
  }

  /** 19.99 in the ledger is 1999 minor units at the processor. */
  lemma MinorUnitsExample()
    ensures MinorUnits(19.99) == 1999
  {
    MinorUnitsOfCents(1999);
    assert CentsToAmount(1999) == 19.99;
  }
}
