/** The slide-in cart drawer: item count, totals and steppers over the cart. */
module CartDrawer {
  import opened Wrappers
  import opened CartReducer
  import opened ShopCart

  /** The drawer's total: subtotal plus shipping, with no subscription
      discount. It is the subtotal itself exactly when the subtotal reaches
      499, and otherwise 49 more. */
  function Total(cart: seq<LineItem>): (t: int)
    ensures Subtotal(cart) <= t <= Subtotal(cart) + ShippingFee
    ensures t == Subtotal(cart) <==> Subtotal(cart) >= FreeShippingThreshold
    ensures t != Subtotal(cart) ==> t == Subtotal(cart) + ShippingFee
  {
    Subtotal(cart) + Shipping(Subtotal(cart))
  }

  /** The drawer and the cart page show the same total exactly when the
      page's subscription discount is nothing. */
  lemma DrawerAndPageTotals(cart: seq<LineItem>)
    requires NonNegativeAmounts(cart)
    ensures PageTotalHundredths(cart) == 100 * Total(cart) - DiscountHundredths(cart)
    ensures PageTotalHundredths(cart) == 100 * Total(cart) <==> NothingSubscribed(cart)
  {
    DiscountZero(cart);
  }

  /** Removing a line lowers the header's item count by that line's quantity. */
  lemma RemoveLowersHeader(cart: seq<LineItem>, k: int)
    requires DistinctCartIds(cart) && 0 <= k < |cart| && cart[k].cartId != ""
    ensures ItemCount(RemoveFromCart(cart, cart[k].cartId)) == ItemCount(cart) - cart[k].quantity
  {
    RemoveLowersCount(cart, cart[k].cartId);
    OnlyLineWithId(cart, k);
  }
}
