/** The card settlement path of the checkout page: the guards of
    `handleCardPayment`, the intent request, the card confirmation and the
    dispatch on its verdict, and the page's `currentOrder` effect.

    The two replies the handler waits for (the payment server's answer to
    the intent request, and the gateway's answer to the card confirmation)
    are inputs. Calls and dispatches the page makes are recorded, in
    order, as `Effect`s. */
module Checkout {

  import opened Wrappers
  import opened CartTotal
  import Country
  import Postal

  const NotReadyMsg: string := "Payment system not ready. Please try again."
  const NoAddressMsg: string := "Please select a delivery address."
  const PostalCodeMsg: string := "Please enter a valid postal code in your address (minimum 5 digits)."
  const IntentFailedMsg: string := "Failed to create payment. Please try again."
  const InvalidReplyMsg: string := "Invalid response from payment server"
  const UnexpectedMsg: string := "An unexpected error occurred. Please try again."
  const SuccessMsg: string := "Payment successful!"
  const UnclearMsg: string := "Payment status unclear. Please check your order status."
  const FailedMsg: string := "Payment failed. Please check your card details and try again."

  const CardPaymentMode: string := "CARD"
  const SucceededStatus: string := "succeeded"
  const CardErrorKind: string := "card_error"
  const ValidationErrorKind: string := "validation_error"

  /** A saved address; a missing text field is the empty string. */
  datatype Address = Address(
    street: string, city: string, state: string,
    postalCode: Option<string>, country: Option<string>, phoneNumber: string)

  datatype User = User(id: string, name: string, email: string)

  /** The `billing_details` sent with the card confirmation. */
  datatype BillingDetails = BillingDetails(
    name: string, email: string,
    line1: string, city: string, state: string, postalCode: string, country: string)

  datatype Order = Order(
    user: string, items: seq<CartItem>, address: Address,
    paymentMode: string, total: int, paymentIntentId: string)

  /** The payment server's answer to the intent request, as the page sees
      it: the request rejected, or a reply whose `clientSecret` may be absent. */
  datatype IntentReply = RequestFailed | Replied(clientSecret: Option<string>)

  /** What `confirmCardPayment` gives: an `error` with its type and message,
      a `paymentIntent` with its status and id, or a rejection with a message. */
  datatype ConfirmResult =
    | ConfirmError(kind: string, message: string)
    | Confirmed(status: string, intentId: string)
    | ConfirmThrew(message: string)

  /** An observable step of the page, in the order it happens. */
  datatype Effect =
    | PostIntent(amount: int)
    | ConfirmCard(clientSecret: string, billing: BillingDetails)
    | CreateOrder(order: Order)
    | ResetCart(userId: string)
    | Navigate(path: string)

  /** The properties the page hands to the card form. */
  datatype Props = Props(orderTotal: int, selectedAddress: Option<Address>, cartItems: seq<CartItem>)

  /** The form's state variables. */
  datatype View = View(loading: bool, paymentStatus: Option<string>, cardError: Option<string>)

  /** The form's state after an attempt, and the effects of the attempt. */
  datatype Outcome = Outcome(view: View, effects: seq<Effect>)

  /** The page computes `orderTotal` from the cart it passes along. */
  function PageProps(cartItems: seq<CartItem>, selectedAddress: Option<Address>): Props {
    Props(OrderTotal(cartItems), selectedAddress, cartItems)
  }

  /** The route the checkout page is shown on; any other route unmounts it. */
  const CheckoutPath: string := "/checkout"

  function OrderSuccessPath(id: string): (p: string)
    ensures p != CheckoutPath
  {
    var p := "/order-success/" + id;
    assert p[1] != CheckoutPath[1];
    p
  }

  /** The message of the first guard of `handleCardPayment` that stops the
      attempt, if one does. */
  function GuardMessage(ready: bool, address: Option<Address>): (m: Option<string>)
    ensures m.None? <==> ready && address.Some? && Postal.PostalValid(address.value.postalCode)
    ensures m.Some? ==> m.value in {NotReadyMsg, NoAddressMsg, PostalCodeMsg}
  {
    if !ready then Some(NotReadyMsg)
    else if address.None? then Some(NoAddressMsg)
    else if !Postal.PostalValid(address.value.postalCode) then Some(PostalCodeMsg)
    else None
  }

  /** `!data || !data.clientSecret` fails the request. */
  predicate HasSecret(reply: IntentReply) {
    reply.Replied? && reply.clientSecret.Some? && reply.clientSecret.value != ""
  }

  function Billing(user: User, address: Address): (b: BillingDetails)
    requires Postal.PostalValid(address.postalCode)
    // the validated postal code is sent as entered, the country as a two-character code
    ensures b.postalCode == address.postalCode.value
    ensures Country.IsCode(b.country)
    ensures b.country == Country.GetCountryCode(address.country).code
  {
    Postal.ValidCodeUnpadded(address.postalCode);
    BillingDetails(
      user.name, user.email, address.street, address.city, address.state,
      Postal.PadStart(address.postalCode.value, Postal.MinLength, '0'),
      Country.GetCountryCode(address.country).code)
  }

  /** The message the `catch` block shows: `error.message || fallback`. */
  function CaughtMessage(message: string): string {
    if message == "" then FailedMsg else message
  }

  predicate IsStoreWrite(e: Effect) {
    e.CreateOrder? || e.ResetCart?
  }

  /** Some effect writes to the order or cart store. */
  predicate WritesStore(es: seq<Effect>) {
    exists i :: 0 <= i < |es| && IsStoreWrite(es[i])
  }

  /** Every cart reset comes after an order creation, and there is at most one order. */
  predicate OrderBeforeReset(es: seq<Effect>) {
    && (forall j :: 0 <= j < |es| && es[j].ResetCart? ==> exists i :: 0 <= i < j && es[i].CreateOrder?)
    && (forall i, j :: 0 <= i < j < |es| && es[i].CreateOrder? ==> !es[j].CreateOrder?)
  }

  /** Some effect navigates away from the checkout page. */
  predicate LeavesCheckout(es: seq<Effect>) {
    exists i :: 0 <= i < |es| && es[i].Navigate? && es[i].path != CheckoutPath
  }

  /** The number of cart resets among the effects. */
  function Resets(es: seq<Effect>): nat {
    if es == [] then 0 else (if es[0].ResetCart? then 1 else 0) + Resets(es[1..])
  }

  lemma {:induction false} ResetsAppend(a: seq<Effect>, b: seq<Effect>)
    ensures Resets(a + b) == Resets(a) + Resets(b)
  {
    if a == [] {
      assert a + b == b;
    } else {
      assert (a + b)[1..] == a[1..] + b;
      ResetsAppend(a[1..], b);
    }
  }

  /** The attempt gets past the guards, receives a client secret, and the
      gateway reports the payment intent as succeeded. */
  predicate Settles(ready: bool, props: Props, reply: IntentReply, confirm: ConfirmResult) {
    && GuardMessage(ready, props.selectedAddress).None?
    && HasSecret(reply)
    && confirm.Confirmed? && confirm.status == SucceededStatus
  }

  /** One run of `handleCardPayment` from the form state `v`: `ready` says
      whether the gateway library and card element are loaded, `reply` and
      `confirm` are what the two awaited calls give. */
  function CardPayment(v: View, ready: bool, props: Props, user: User, fees: Fees,
                       reply: IntentReply, confirm: ConfirmResult): (r: Outcome)
    // a guard that stops the attempt changes only the status message
    ensures GuardMessage(ready, props.selectedAddress).Some? ==>
              r == Outcome(v.(paymentStatus := GuardMessage(ready, props.selectedAddress)), [])
    // past the guards the intent is requested for the charged total, and loading ends false
    ensures GuardMessage(ready, props.selectedAddress).None? ==>
              && !r.view.loading
              && r.effects != []
              && r.effects[0] == PostIntent(ChargedTotal(props.orderTotal, fees))
    // the card is confirmed exactly when a client secret came back
    ensures (exists i :: 0 <= i < |r.effects| && r.effects[i].ConfirmCard?) <==>
              GuardMessage(ready, props.selectedAddress).None? && HasSecret(reply)
    // the order and cart stores are written exactly on a succeeded payment
    ensures WritesStore(r.effects) <==> Settles(ready, props, reply, confirm)
    ensures OrderBeforeReset(r.effects)
    // the page is left exactly on a succeeded payment
    ensures LeavesCheckout(r.effects) <==> Settles(ready, props, reply, confirm)
    // and then in this order, with the order recording the charged total, the cart and the intent
    ensures Settles(ready, props, reply, confirm) ==>
              var address := props.selectedAddress.value;
              var total := ChargedTotal(props.orderTotal, fees);
              && r.view == View(false, Some(SuccessMsg), None)
              && r.effects == [
                   PostIntent(total),
                   ConfirmCard(reply.clientSecret.value, Billing(user, address)),
                   CreateOrder(Order(user.id, props.cartItems, address, CardPaymentMode, total, confirm.intentId)),
                   ResetCart(user.id),
                   Navigate(OrderSuccessPath(confirm.intentId))]
  {
    var guard := GuardMessage(ready, props.selectedAddress);
    if guard.Some? then
      Outcome(v.(paymentStatus := guard), [])
    else
      var address := props.selectedAddress.value;
      var total := ChargedTotal(props.orderTotal, fees);
      var request := [PostIntent(total)];
      if reply.RequestFailed? then
        Outcome(View(false, Some(IntentFailedMsg), None), request)
      else if !HasSecret(reply) then
        Outcome(View(false, Some(InvalidReplyMsg), None), request)
      else
        var sent := request + [ConfirmCard(reply.clientSecret.value, Billing(user, address))];
        assert sent[1].ConfirmCard?;
        match confirm
        case ConfirmError(kind, message) =>
          if kind == CardErrorKind || kind == ValidationErrorKind then
            Outcome(View(false, None, Some(message)), sent)
          else
            Outcome(View(false, Some(UnexpectedMsg), None), sent)
        case Confirmed(status, id) =>
          if status == SucceededStatus then
            var order := Order(user.id, props.cartItems, address, CardPaymentMode, total, id);
            var settled := sent + [CreateOrder(order), ResetCart(user.id), Navigate(OrderSuccessPath(id))];
            assert settled[1].ConfirmCard? && settled[2].CreateOrder? && IsStoreWrite(settled[2]);
            assert settled[4].Navigate? && settled[4].path != CheckoutPath;
            Outcome(View(false, Some(SuccessMsg), None), settled)
          else
            Outcome(View(false, Some(UnclearMsg), None), sent)
        case ConfirmThrew(message) =>
          Outcome(View(false, Some(CaughtMessage(message)), None), sent)
  }

  /** A failed or secret-less intent request shows its message and goes no further. */
  lemma IntentFailureOutcome(v: View, ready: bool, props: Props, user: User, fees: Fees,
                             reply: IntentReply, confirm: ConfirmResult)
    requires GuardMessage(ready, props.selectedAddress).None? && !HasSecret(reply)
    ensures CardPayment(v, ready, props, user, fees, reply, confirm) ==
              Outcome(View(false, Some(if reply.RequestFailed? then IntentFailedMsg else InvalidReplyMsg), None),
                      [PostIntent(ChargedTotal(props.orderTotal, fees))])
  {
  }

  /** A confirmation error: card and validation errors show the gateway's
      message beside the card field, others a generic status. */
  lemma ConfirmErrorOutcome(v: View, ready: bool, props: Props, user: User, fees: Fees,
                            reply: IntentReply, confirm: ConfirmResult)
    requires GuardMessage(ready, props.selectedAddress).None? && HasSecret(reply) && confirm.ConfirmError?
    ensures var r := CardPayment(v, ready, props, user, fees, reply, confirm);
            && !WritesStore(r.effects)
            && (confirm.kind in {CardErrorKind, ValidationErrorKind} ==> r.view == View(false, None, Some(confirm.message)))
            && (confirm.kind !in {CardErrorKind, ValidationErrorKind} ==> r.view == View(false, Some(UnexpectedMsg), None))
  {
  }

  /** A payment intent that did not succeed leaves the outcome "unclear";
      a rejected confirmation shows its message, or the fallback. */
  lemma UnsettledVerdictOutcome(v: View, ready: bool, props: Props, user: User, fees: Fees,
                                reply: IntentReply, confirm: ConfirmResult)
    requires GuardMessage(ready, props.selectedAddress).None? && HasSecret(reply)
    requires confirm.ConfirmThrew? || (confirm.Confirmed? && confirm.status != SucceededStatus)
    ensures var r := CardPayment(v, ready, props, user, fees, reply, confirm);
            && !WritesStore(r.effects)
            && r.view == View(false, Some(if confirm.Confirmed? then UnclearMsg else CaughtMessage(confirm.message)), None)
  {
  }

  /** The `currentOrder` effect of the page: while the page is mounted and
      the store holds an order with an id, the cart is reset and the page
      moves to that order's page. An unmounted page runs no effect. */
  function CurrentOrderEffects(mounted: bool, currentOrderId: Option<string>, user: User): (es: seq<Effect>)
    // the effect runs exactly on a mounted page whose store holds an order id
    ensures es != [] <==> mounted && currentOrderId.Some? && currentOrderId.value != ""
    // which resets the user's cart, once, and leaves for the stored order's page
    ensures es != [] ==>
              && es[0] == ResetCart(user.id)
              && Resets(es) == 1
              && LeavesCheckout(es)
              && es[|es| - 1] == Navigate(OrderSuccessPath(currentOrderId.value))
  {
    if mounted && currentOrderId.Some? && currentOrderId.value != "" then
      var es := [ResetCart(user.id), Navigate(OrderSuccessPath(currentOrderId.value))];
      assert es[1].Navigate? && es[1].path != CheckoutPath;
      assert es == [es[0]] + [es[1]];
      ResetsAppend([es[0]], [es[1]]);
      es
    else
      []
  }

  /** A settled attempt dispatches one cart reset and ends on the intent's
      success page: its navigation unmounts the page, so a later change of
      the store's current order runs no effect. */
  lemma SettledAttemptResetsOnce(v: View, ready: bool, props: Props, user: User, fees: Fees,
                                 reply: IntentReply, confirm: ConfirmResult, laterOrderId: Option<string>)
    requires Settles(ready, props, reply, confirm)
    ensures var first := CardPayment(v, ready, props, user, fees, reply, confirm).effects;
            var es := first + CurrentOrderEffects(!LeavesCheckout(first), laterOrderId, user);
            && Resets(es) == 1
            && es[|es| - 1] == Navigate(OrderSuccessPath(confirm.intentId))
  {
    var es := CardPayment(v, ready, props, user, fees, reply, confirm).effects;
    assert CurrentOrderEffects(!LeavesCheckout(es), laterOrderId, user) == [];
    assert es + [] == es;
    assert es == [es[0]] + [es[1]] + [es[2]] + [es[3]] + [es[4]];
    ResetsAppend([es[0]] + [es[1]] + [es[2]] + [es[3]], [es[4]]);
    ResetsAppend([es[0]] + [es[1]] + [es[2]], [es[3]]);
    ResetsAppend([es[0]] + [es[1]], [es[2]]);
    ResetsAppend([es[0]], [es[1]]);
  }

  /** The checkout page (the `Checkout` component) with the state of the
      card form it renders, and the log of what the page did. The page is
      mounted until a navigation leaves `/checkout`. */
  class CheckoutPage {
    var mounted: bool
    var loading: bool
    var paymentStatus: Option<string>
    var cardError: Option<string>
    /** Requests, gateway calls, store dispatches and navigations, oldest first. */
    var effects: seq<Effect>

    /** Mounting the page: the form's state starts empty, and the
        `currentOrder` effect runs once with the store's current order. */
    constructor (currentOrderId: Option<string>, user: User)
      ensures loading == false && paymentStatus == None && cardError == None
      ensures effects == CurrentOrderEffects(true, currentOrderId, user)
      ensures mounted == (effects == [])
    {
      loading := false;
      paymentStatus := None;
      cardError := None;
      var onMount := CurrentOrderEffects(true, currentOrderId, user);
      effects := onMount;
      mounted := onMount == [];
    }

    function CurrentView(): View
      reads this
    {
      View(loading, paymentStatus, cardError)
    }

    /** Records one effect; a navigation away from `/checkout` unmounts the page. */
    method Emit(e: Effect)
      modifies this
      ensures effects == old(effects) + [e]
      ensures mounted == (old(mounted) && !(e.Navigate? && e.path != CheckoutPath))
      ensures CurrentView() == old(CurrentView())
    {
      effects := effects + [e];
      if e.Navigate? && e.path != CheckoutPath {
        mounted := false;
      }
    }

    /** `handleCardChange`: the card element reports its current error, if any. */
    method HandleCardChange(error: Option<string>)
      modifies this
      ensures cardError == error
      ensures loading == old(loading) && paymentStatus == old(paymentStatus)
      ensures effects == old(effects) && mounted == old(mounted)
    {
      cardError := error;
    }

    /** `handleCardPayment`, run by a click on the pay button of the mounted page. */
    method HandleCardPayment(ready: bool, props: Props, user: User, fees: Fees,
                             reply: IntentReply, confirm: ConfirmResult)
      requires mounted
      modifies this
      ensures CurrentView() == CardPayment(old(CurrentView()), ready, props, user, fees, reply, confirm).view
      ensures effects == old(effects) + CardPayment(old(CurrentView()), ready, props, user, fees, reply, confirm).effects
      ensures mounted == !Settles(ready, props, reply, confirm)
    {
      if !ready {
        paymentStatus := Some(NotReadyMsg);
        return;
      }
      if props.selectedAddress.None? {
        paymentStatus := Some(NoAddressMsg);
        return;
      }
      var address := props.selectedAddress.value;
      if !Postal.PostalValid(address.postalCode) {
        paymentStatus := Some(PostalCodeMsg);
        return;
      }

      loading := true;
      paymentStatus := None;
      cardError := None;

      // try: `thrown` is the message of an error that reaches the catch block
      var thrown: Option<string> := None;
      var total := ChargedTotal(props.orderTotal, fees);
      Emit(PostIntent(total));
      if reply.RequestFailed? {
        thrown := Some(IntentFailedMsg);
      } else if !HasSecret(reply) {
        thrown := Some(InvalidReplyMsg);
      } else {
        var secret := reply.clientSecret.value;
        Emit(ConfirmCard(secret, Billing(user, address)));
        match confirm
        case ConfirmError(kind, message) =>
          if kind == CardErrorKind || kind == ValidationErrorKind {
            cardError := Some(message);
          } else {
            paymentStatus := Some(UnexpectedMsg);
          }
        case Confirmed(status, id) =>
          if status == SucceededStatus {
            paymentStatus := Some(SuccessMsg);
            var order := Order(user.id, props.cartItems, address, CardPaymentMode, total, id);
            Emit(CreateOrder(order));
            Emit(ResetCart(user.id));
            Emit(Navigate(OrderSuccessPath(id)));
          } else {
            paymentStatus := Some(UnclearMsg);
          }
        case ConfirmThrew(message) =>
          thrown := Some(message);
      }
      // catch
      if thrown.Some? {
        paymentStatus := Some(CaughtMessage(thrown.value));
      }
      // finally
      loading := false;
    }

    /** The page's `currentOrder` effect, run when the store's current order changes. */
    method OnCurrentOrder(currentOrderId: Option<string>, user: User)
      modifies this
      ensures CurrentView() == old(CurrentView())
      ensures effects == old(effects) + CurrentOrderEffects(old(mounted), currentOrderId, user)
      ensures mounted == (old(mounted) && CurrentOrderEffects(old(mounted), currentOrderId, user) == [])
    {
      if mounted && currentOrderId.Some? && currentOrderId.value != "" {
        Emit(ResetCart(user.id));
        Emit(Navigate(OrderSuccessPath(currentOrderId.value)));
      }
    }
  }
}
