/** The amount calculator of the checkout page: the `orderTotal` fold over
    the cart and the shipping and tax fees added to it. Every amount is an
    integer number of minor units (cents). */
module CartTotal {

  datatype Product = Product(id: string, price: int)

  datatype CartItem = CartItem(product: Product, quantity: int)

  /** The store's SHIPPING and TAXES constants. */
  datatype Fees = Fees(shipping: int, taxes: int)

  function LineTotal(item: CartItem): int {
    item.product.price * item.quantity
  }

  /** The reference definition: the sum of price × quantity over the items. */
  function Sum(items: seq<CartItem>): int {
    if items == [] then 0 else LineTotal(items[0]) + Sum(items[1..])
  }

  /** `items.reduce((acc, item) => item.product.price * item.quantity + acc, acc)`,
      a fold from the left. */
  function Reduce(items: seq<CartItem>, acc: int): int {
    if items == [] then acc else Reduce(items[1..], LineTotal(items[0]) + acc)
  }

  /** The page's `orderTotal`: the fold started at 0. */
  function OrderTotal(items: seq<CartItem>): int {
    Reduce(items, 0)
  }

  /** `orderTotal + SHIPPING + TAXES`, the amount both charged and recorded. */
  function ChargedTotal(orderTotal: int, fees: Fees): int {
    orderTotal + fees.shipping + fees.taxes
  }

  lemma {:induction false} ReduceIsSum(items: seq<CartItem>, acc: int)
    ensures Reduce(items, acc) == acc + Sum(items)
  {
    if items != [] {
      ReduceIsSum(items[1..], LineTotal(items[0]) + acc);
    }
  }

  /** The fold computes Σ price × quantity. */
  lemma OrderTotalIsSum(items: seq<CartItem>)
    ensures OrderTotal(items) == Sum(items)
  {
    ReduceIsSum(items, 0);
  }

  lemma {:induction false} SumAppend(a: seq<CartItem>, b: seq<CartItem>)
    ensures Sum(a + b) == Sum(a) + Sum(b)
  {
    if a == [] {
      assert a + b == b;
    } else {
      assert (a + b)[1..] == a[1..] + b;
      SumAppend(a[1..], b);
    }
  }

  /** Splitting a cart splits its total: with integer amounts the fold has
      no rounding drift, whatever way the items are grouped. */
  lemma OrderTotalAppend(a: seq<CartItem>, b: seq<CartItem>)
    ensures OrderTotal(a + b) == OrderTotal(a) + OrderTotal(b)
  {
    OrderTotalIsSum(a + b);
    OrderTotalIsSum(a);
    OrderTotalIsSum(b);
    SumAppend(a, b);
  }

  predicate NonNegative(items: seq<CartItem>) {
    forall i :: 0 <= i < |items| ==> items[i].product.price >= 0 && items[i].quantity >= 0
  }

  lemma {:induction false} SumNonNegative(items: seq<CartItem>)
    requires NonNegative(items)
    ensures Sum(items) >= 0
  {
    if items != [] {
      assert NonNegative(items[1..]) by {
        forall i | 0 <= i < |items| - 1
          ensures items[1..][i].product.price >= 0 && items[1..][i].quantity >= 0
        {
          assert items[1..][i] == items[i + 1];
        }
      }
      SumNonNegative(items[1..]);
    }
  }

  /** With non-negative prices, quantities and fees the charged total is
      never negative; it is positive as soon as a fee is. */
  lemma ChargedTotalNonNegative(items: seq<CartItem>, fees: Fees)
    requires NonNegative(items) && fees.shipping >= 0 && fees.taxes >= 0
    ensures ChargedTotal(OrderTotal(items), fees) >= fees.shipping + fees.taxes >= 0
  {
    OrderTotalIsSum(items);
    SumNonNegative(items);
  }
}
