/** The server's `POST /create-payment-intent` route: it checks the
    amount, asks the card gateway for a payment intent of `amount * 100`
    in US dollars, and answers 200, 400 or 500. The gateway's answer is an
    input: the reply it gives if, and only if, the handler calls it. */
module IntentEndpoint {

  import opened Wrappers

  const InvalidAmountMsg: string := "Invalid amount"
  const Currency: string := "usd"
  const PaymentMethodTypes: seq<string> := ["card"]

  /** The arguments of `stripe.paymentIntents.create`. */
  datatype IntentParams = IntentParams(amount: int, currency: string, paymentMethodTypes: seq<string>)

  /** What the gateway does with the call: create an intent, or throw. */
  datatype GatewayReply = IntentCreated(clientSecret: string) | GatewayError(message: string)

  datatype Body = SecretBody(clientSecret: string) | ErrorBody(error: string)

  datatype Response = Response(status: int, body: Body)

  /** The response written, and the gateway call made if one was. */
  datatype Handled = Handled(response: Response, gatewayCall: Option<IntentParams>)

  /** `!amount || amount <= 0` rejects: a missing amount, zero or a negative one. */
  predicate AmountValid(amount: Option<int>) {
    amount.Some? && amount.value > 0
  }

  function CreatePaymentIntent(amount: Option<int>, gateway: GatewayReply): (h: Handled)
    // a missing or non-positive amount is refused before the gateway is called
    ensures !AmountValid(amount) <==> h.response.status == 400
    ensures !AmountValid(amount) ==> h.response.body == ErrorBody(InvalidAmountMsg) && h.gatewayCall == None
    // a valid amount is sent to the gateway scaled by 100, in dollars, for cards only
    ensures AmountValid(amount) ==> h.gatewayCall == Some(IntentParams(100 * amount.value, Currency, PaymentMethodTypes))
    // the gateway's secret comes back with 200, and only then
    ensures h.response.status == 200 <==> AmountValid(amount) && gateway.IntentCreated?
    ensures h.response.body.SecretBody? <==> h.response.status == 200
    ensures h.response.status == 200 ==> h.response.body.clientSecret == gateway.clientSecret
    // a gateway failure is a 500 carrying the failure's message
    ensures h.response.status == 500 <==> AmountValid(amount) && gateway.GatewayError?
    ensures h.response.status == 500 ==> h.response.body == ErrorBody(gateway.message)
  {
    if !AmountValid(amount) then
      Handled(Response(400, ErrorBody(InvalidAmountMsg)), None)
    else
      var params := IntentParams(amount.value * 100, Currency, PaymentMethodTypes);
      match gateway
      case IntentCreated(secret) => Handled(Response(200, SecretBody(secret)), Some(params))
      case GatewayError(message) => Handled(Response(500, ErrorBody(message)), Some(params))
  }

  /** Every response is one of the three the route writes. */
  lemma StatusIsOneOfThree(amount: Option<int>, gateway: GatewayReply)
    ensures CreatePaymentIntent(amount, gateway).response.status in {200, 400, 500}
  {
  }
}
