/** The cart line the checkout page and the PayPal button read. The cart
    context that owns and updates these lines is not part of this model; only
    the shape of a line and the line price the order summary shows are. */
module Cart {

  /** A cart line; `price` is the unit price in pence. */
  datatype CartItem = CartItem(id: string, name: string, brand: string, price: int, quantity: int, image: string)

  /** The price shown beside a line in the order summary: price times quantity. */
  function LinePrice(item: CartItem): int {
    item.price * item.quantity
  }

  /** The sum of the summary's line prices, added left to right. */
  function LinesTotal(items: seq<CartItem>): int {
    if items == [] then 0 else LinesTotal(items[..|items| - 1]) + LinePrice(items[|items| - 1])
  }

  /** With non-negative prices and quantities no line, and so no total, is
      negative, and each line is at most the total. */
  lemma {:induction false} LinesTotalBounds(items: seq<CartItem>)
    requires forall i :: 0 <= i < |items| ==> items[i].price >= 0 && items[i].quantity >= 0
    ensures LinesTotal(items) >= 0
    ensures forall i :: 0 <= i < |items| ==> LinePrice(items[i]) <= LinesTotal(items)
  {
    if items != [] {
      var n := |items|;
      var prefix := items[..n - 1];
      LinesTotalBounds(prefix);
      assert LinePrice(items[n - 1]) >= 0;
      forall i | 0 <= i < n
        ensures LinePrice(items[i]) <= LinesTotal(items)
      {
        if i < n - 1 {
          assert items[i] == prefix[i];
        }
      }
    }
  }
}
