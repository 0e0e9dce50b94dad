/** One checkout attempt end to end: the card form posts its amount to
    the intent route, axios hands the route's response back to the form,
    and the form goes on as `Checkout.CardPayment` says. */
module Settlement {

  import opened Wrappers
  import opened CartTotal
  import opened Checkout
  import opened IntentEndpoint

  /** axios rejects a request whose status is not 2xx; otherwise the form
      reads `data.clientSecret`. */
  function AxiosReply(response: Response): (r: IntentReply)
    ensures r.RequestFailed? <==> !(200 <= response.status < 300)
    ensures HasSecret(r) <==> 200 <= response.status < 300 && response.body.SecretBody? && response.body.clientSecret != ""
  {
    if 200 <= response.status < 300 then
      Replied(if response.body.SecretBody? then Some(response.body.clientSecret) else None)
    else
      RequestFailed
  }

  /** What the form ends with, and the call the route made to the gateway. */
  datatype Run = Run(outcome: Outcome, gatewayCall: Option<IntentParams>)

  function Attempt(v: View, ready: bool, props: Props, user: User, fees: Fees,
                   gateway: GatewayReply, confirm: ConfirmResult): (r: Run)
    // the guards stop the attempt before any request, so the gateway is never called
    ensures GuardMessage(ready, props.selectedAddress).Some? ==> r.gatewayCall == None
    // a non-positive total is refused by the route: no gateway call, no store write
    ensures GuardMessage(ready, props.selectedAddress).None? && ChargedTotal(props.orderTotal, fees) <= 0 ==>
              && r.gatewayCall == None
              && r.outcome.view.paymentStatus == Some(IntentFailedMsg)
              && !WritesStore(r.outcome.effects)
    // a gateway failure fails the request and writes nothing
    ensures gateway.GatewayError? ==> !WritesStore(r.outcome.effects)
    // a valid attempt asks the gateway for 100 times the charged total, whatever the card's verdict
    ensures GuardMessage(ready, props.selectedAddress).None? && ChargedTotal(props.orderTotal, fees) > 0 ==>
              r.gatewayCall == Some(IntentParams(100 * ChargedTotal(props.orderTotal, fees), Currency, PaymentMethodTypes))
    // the stores are written exactly when the route returns a secret and the card payment succeeds
    ensures WritesStore(r.outcome.effects) <==>
              && GuardMessage(ready, props.selectedAddress).None?
              && ChargedTotal(props.orderTotal, fees) > 0
              && gateway.IntentCreated? && gateway.clientSecret != ""
              && confirm.Confirmed? && confirm.status == SucceededStatus
    // the amount the gateway is asked for is 100 times the total the order records
    ensures forall i :: 0 <= i < |r.outcome.effects| && r.outcome.effects[i].CreateOrder? ==>
              r.gatewayCall == Some(IntentParams(100 * r.outcome.effects[i].order.total, Currency, PaymentMethodTypes))
  {
    if GuardMessage(ready, props.selectedAddress).Some? then
      Run(CardPayment(v, ready, props, user, fees, RequestFailed, confirm), None)
    else
      var handled := CreatePaymentIntent(Some(ChargedTotal(props.orderTotal, fees)), gateway);
      Run(CardPayment(v, ready, props, user, fees, AxiosReply(handled.response), confirm), handled.gatewayCall)
  }

  /** A $40.00 cart with $5 shipping and $2 tax: the intent request and the
      order carry 4700 cents, and the gateway is asked for 470000 cents. */
  lemma ScenarioSettled(v: View, address: Address, user: User, secret: string, id: string)
    requires Postal.PostalValid(address.postalCode) && secret != ""
    ensures var items := [CartItem(Product("p", 2000), 2)];
            var props := PageProps(items, Some(address));
            var r := Attempt(v, true, props, user, Fees(500, 200), IntentCreated(secret), Confirmed(SucceededStatus, id));
            && r.outcome.effects[0] == PostIntent(4700)
            && r.outcome.effects[2] == CreateOrder(Order(user.id, items, address, CardPaymentMode, 4700, id))
            && r.gatewayCall == Some(IntentParams(470000, Currency, PaymentMethodTypes))
  {
    var items := [CartItem(Product("p", 2000), 2)];
    assert OrderTotal(items) == 4000 by {
      assert Reduce(items[1..], 4000) == 4000;
    }
  }

  /** A declined card: the form shows the gateway's message and neither
      store is written. */
  lemma ScenarioDeclined(v: View, props: Props, user: User, fees: Fees, secret: string, message: string)
    requires GuardMessage(true, props.selectedAddress).None? && ChargedTotal(props.orderTotal, fees) > 0 && secret != ""
    ensures var r := Attempt(v, true, props, user, fees, IntentCreated(secret), ConfirmError(CardErrorKind, message));
            && r.outcome.view == View(false, None, Some(message))
            && !WritesStore(r.outcome.effects)
  {
  }

  /** A settled payment on a freshly mounted page, followed by the store
      reporting a current order: one cart reset, and the page ends on the
      intent's success page. */
  method SettledCheckout(props: Props, user: User, fees: Fees, secret: string, id: string,
                         storedOrderId: Option<string>) returns (es: seq<Effect>)
    requires GuardMessage(true, props.selectedAddress).None? && secret != ""
    ensures Resets(es) == 1
    ensures es[|es| - 1] == Navigate(OrderSuccessPath(id))
  {
    var page := new CheckoutPage(None, user);
    var v := page.CurrentView();
    var reply, confirm := Replied(Some(secret)), Confirmed(SucceededStatus, id);
    assert Settles(true, props, reply, confirm);
    page.HandleCardPayment(true, props, user, fees, reply, confirm);
    ghost var first := CardPayment(v, true, props, user, fees, reply, confirm).effects;
    assert [] + first == first;
    assert !page.mounted;
    page.OnCurrentOrder(storedOrderId, user);
    es := page.effects;
    SettledAttemptResetsOnce(v, true, props, user, fees, reply, confirm, storedOrderId);
  }
}
