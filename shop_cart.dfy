/** The cart page: quantity steppers and the subscription toggle, both
    dispatched to the application's cart updaters. */
module ShopCart {
  import opened Wrappers
  import opened CartReducer

  predicate DistinctCartIds(cart: seq<LineItem>) {
    forall i, j :: 0 <= i < j < |cart| ==> cart[i].cartId != cart[j].cartId
  }

  const NoPatch: Patch := Patch(None, None, None, None, None, None, None)

  /** `updateQuantity(cartId, q)`: a quantity of 0 or less removes the line,
      any other sets it. */
  function UpdateQuantity(cart: seq<LineItem>, cartId: string, q: int): (r: seq<LineItem>)
    ensures q <= 0 && cartId != "" ==> forall i :: 0 <= i < |r| ==> r[i].cartId != cartId
    ensures q > 0 ==> |r| == |cart|
    ensures q > 0 && cartId != "" ==>
      forall i :: 0 <= i < |cart| ==>
        r[i] == if cart[i].cartId == cartId then cart[i].(quantity := q) else cart[i]
  {
    if q <= 0 then RemoveFromCart(cart, cartId)
    else UpdateCartItem(cart, cartId, Some(NoPatch.(quantity := Some(q))))
  }

  /** The minus button on line `k` of a cart with distinct line ids: a single
      item removes the line, more items lose one. */
  lemma MinusStep(cart: seq<LineItem>, k: int)
    requires DistinctCartIds(cart) && 0 <= k < |cart| && cart[k].cartId != ""
    ensures var r := UpdateQuantity(cart, cart[k].cartId, cart[k].quantity - 1);
      && (cart[k].quantity <= 1 ==> |r| < |cart| && ItemCount(r) == ItemCount(cart) - cart[k].quantity)
      && (cart[k].quantity > 1 ==> r == cart[k := cart[k].(quantity := cart[k].quantity - 1)])
  {
    var id := cart[k].cartId;
    if cart[k].quantity <= 1 {
      RemoveLowersCount(cart, id);
      OnlyLineWithId(cart, k);
    } else {
      var r := UpdateQuantity(cart, id, cart[k].quantity - 1);
      forall i | 0 <= i < |cart| && i != k ensures r[i] == cart[i] {
        assert cart[i].cartId != id;
      }
    }
  }

  /** The plus button on line `k` adds exactly one item to the cart. */
  lemma PlusStep(cart: seq<LineItem>, k: int)
    requires DistinctCartIds(cart) && 0 <= k < |cart| && cart[k].cartId != "" && cart[k].quantity >= 0
    ensures var r := UpdateQuantity(cart, cart[k].cartId, cart[k].quantity + 1);
      && r == cart[k := cart[k].(quantity := cart[k].quantity + 1)]
      && ItemCount(r) == ItemCount(cart) + 1
  {
    var id := cart[k].cartId;
    var r := UpdateQuantity(cart, id, cart[k].quantity + 1);
    forall i | 0 <= i < |cart| && i != k ensures r[i] == cart[i] {
      assert cart[i].cartId != id;
    }
    ItemCountUpdate(cart, k, cart[k].(quantity := cart[k].quantity + 1));
  }

  /** With distinct line ids, the lines holding the id of line `k` are line `k` alone. */
  lemma OnlyLineWithId(cart: seq<LineItem>, k: int)
    requires DistinctCartIds(cart) && 0 <= k < |cart| && cart[k].cartId != ""
    ensures ItemCount(Lists.Filter(cart, Holding(cart[k].cartId))) == cart[k].quantity
    ensures |RemoveFromCart(cart, cart[k].cartId)| == |cart| - 1
  {
    var id := cart[k].cartId;
    var held := Lists.Filter(cart, Holding(id));
    HeldByOne(cart, k);
    assert held == [cart[k]];
    assert ItemCount(held) == cart[k].quantity + ItemCount(held[1..]);
    FilterSplit(cart, id);
  }

  lemma {:induction false} HeldByOne(cart: seq<LineItem>, k: int)
    requires DistinctCartIds(cart) && 0 <= k < |cart|
    ensures Lists.Filter(cart, Holding(cart[k].cartId)) == [cart[k]]
  {
    var id := cart[k].cartId;
    if k == 0 {
      NoneHeld(cart[1..], id);
    } else {
      assert cart[0].cartId != id;
      HeldByOne(cart[1..], k - 1);
    }
  }

  lemma {:induction false} NoneHeld(cart: seq<LineItem>, id: string)
    requires forall i :: 0 <= i < |cart| ==> cart[i].cartId != id
    ensures Lists.Filter(cart, Holding(id)) == []
  {
    if cart != [] {
      NoneHeld(cart[1..], id);
    }
  }

  /** Every line is either kept or removed. */
  lemma {:induction false} FilterSplit(cart: seq<LineItem>, id: string)
    ensures |Lists.Filter(cart, OtherThan(id))| + |Lists.Filter(cart, Holding(id))| == |cart|
  {
    if cart != [] {
      FilterSplit(cart[1..], id);
    }
  }

  // ----- totals ----------------------------------------------------------

  /** The subscription discount, 15% of each subscribed line, in hundredths
      of a rupee (exact for whole-rupee prices). */
  function DiscountHundredths(cart: seq<LineItem>): int {
    if cart == [] then 0
    else (if cart[0].subscription then 15 * (cart[0].price * cart[0].quantity) else 0)
         + DiscountHundredths(cart[1..])
  }

  /** The cart page's total, subtotal less discount plus shipping, in hundredths. */
  function PageTotalHundredths(cart: seq<LineItem>): int {
    var subtotal := Subtotal(cart);
    100 * subtotal - DiscountHundredths(cart) + 100 * Shipping(subtotal)
  }

  predicate NonNegativeAmounts(cart: seq<LineItem>) {
    forall i :: 0 <= i < |cart| ==> cart[i].price >= 0 && cart[i].quantity >= 0
  }

  /** No subscribed line carries a positive amount. */
  predicate NothingSubscribed(cart: seq<LineItem>) {
    forall i :: 0 <= i < |cart| ==> (cart[i].subscription ==> cart[i].price * cart[i].quantity == 0)
  }

  /** The discount lies between nothing and 15% of the subtotal. */
  lemma {:induction false} DiscountRange(cart: seq<LineItem>)
    requires NonNegativeAmounts(cart)
    ensures 0 <= DiscountHundredths(cart) <= 15 * Subtotal(cart)
  {
    if cart != [] {
      assert NonNegativeAmounts(cart[1..]) by {
        forall i | 0 <= i < |cart[1..]| ensures cart[1..][i] == cart[i + 1] { }
      }
      DiscountRange(cart[1..]);
      AmountNonNegative(cart[0]);
    }
  }

  lemma AmountNonNegative(line: LineItem)
    requires line.price >= 0 && line.quantity >= 0
    ensures line.price * line.quantity >= 0
  {
  }

  /** The discount is nothing exactly when no line with a positive amount is subscribed. */
  lemma {:induction false} DiscountZero(cart: seq<LineItem>)
    requires NonNegativeAmounts(cart)
    ensures DiscountHundredths(cart) == 0 <==> NothingSubscribed(cart)
  {
    if cart != [] {
      var tail := cart[1..];
      assert forall i :: 0 <= i < |tail| ==> tail[i] == cart[i + 1];
      assert NonNegativeAmounts(tail);
      DiscountZero(tail);
      DiscountRange(tail);
      AmountNonNegative(cart[0]);
      assert NothingSubscribed(cart) <==>
        (cart[0].subscription ==> cart[0].price * cart[0].quantity == 0) && NothingSubscribed(tail);
    }
  }

  /** The page total is never below 85% of the subtotal plus shipping. */
  lemma PageTotalAtLeast(cart: seq<LineItem>)
    requires NonNegativeAmounts(cart)
    ensures PageTotalHundredths(cart) >= 85 * Subtotal(cart) + 100 * Shipping(Subtotal(cart))
    ensures PageTotalHundredths(cart) >= 0
  {
    DiscountRange(cart);
    SubtotalNonNegative(cart);
  }

  /** The "to go" amount towards free shipping, shown while the subtotal is
      below the threshold. */
  function ToGo(subtotal: int): (r: Option<int>)
    ensures r.Some? <==> Shipping(subtotal) != 0
    ensures r.Some? ==> r.value > 0 && subtotal + r.value == FreeShippingThreshold
  {
    if subtotal < FreeShippingThreshold then Some(FreeShippingThreshold - subtotal) else None
  }

  // ----- the subscription toggle ----------------------------------------

  /** `toggleSubscription(cartId, current)` as written: the line's flag is
      patched to the negation of `current`, whatever other lines hold. */
  function ToggleSubscription(cart: seq<LineItem>, cartId: string, current: bool): (r: seq<LineItem>)
    ensures |r| == |cart|
    ensures cartId != "" ==>
      forall i :: 0 <= i < |cart| && cart[i].cartId == cartId ==> r[i] == cart[i].(subscription := !current)
    ensures forall i :: 0 <= i < |cart| && cart[i].cartId != cartId ==> r[i] == cart[i]
  {
    UpdateCartItem(cart, cartId, Some(NoPatch.(subscription := Some(!current))))
  }

  /** The toggle can give one product two lines of the same size and
      subscription: a one-off and a subscribed line of the same product, with
      the one-off line toggled on. */
  lemma ToggleBreaksUnique()
    ensures var cart := [LineItem("a", "p", "Greens", 100, "100g", false, 1),
                         LineItem("b", "p", "Greens", 100, "100g", true, 2)];
      Unique(cart) && !Unique(ToggleSubscription(cart, "a", false))
  {
    var cart := [LineItem("a", "p", "Greens", 100, "100g", false, 1),
                 LineItem("b", "p", "Greens", 100, "100g", true, 2)];
    var r := ToggleSubscription(cart, "a", false);
    assert KeyOf(r[0]) == KeyOf(r[1]);
  }

  /** The index of the first line with the id, if any. */
  function IndexOfCartId(cart: seq<LineItem>, cartId: string): (k: Option<nat>)
    ensures k.None? <==> forall i :: 0 <= i < |cart| ==> cart[i].cartId != cartId
    ensures k.Some? ==> k.value < |cart| && cart[k.value].cartId == cartId
  {
    if cart == [] then None
    else if cart[0].cartId == cartId then Some(0)
    else match IndexOfCartId(cart[1..], cartId)
      case None => None
      case Some(j) => Some(j + 1)
  }

  /** The index of the line with the key, if any. */
  function IndexOfKey(cart: seq<LineItem>, key: LineKey): (k: Option<nat>)
    ensures k.None? <==> !HasLine(cart, key)
    ensures k.Some? ==> k.value < |cart| && KeyOf(cart[k.value]) == key
  {
    if cart == [] then None
    else if KeyOf(cart[0]) == key then Some(0)
    else match IndexOfKey(cart[1..], key)
      case None =>
        assert forall i :: 1 <= i < |cart| ==> cart[i] == cart[1..][i - 1];
        None
      case Some(j) => Some(j + 1)
  }

  function RemoveAt(cart: seq<LineItem>, k: nat): seq<LineItem>
    requires k < |cart|
  {
    cart[..k] + cart[k + 1..]
  }

  /** The toggle with the cart's merge rule applied: when a line with the
      flipped combination already exists, the toggled line's items join it
      and the toggled line goes; otherwise the flag flips in place. */
  function ToggleSubscriptionMerged(cart: seq<LineItem>, cartId: string): (r: seq<LineItem>)
  {
    match IndexOfCartId(cart, cartId)
    case None => cart
    case Some(k) => ToggleLine(cart, k)
  }

  /** The merging toggle applied to line `k`. */
  function ToggleLine(cart: seq<LineItem>, k: nat): seq<LineItem>
    requires k < |cart|
  {
    var flipped := cart[k].(subscription := !cart[k].subscription);
    var other := IndexOfKey(cart, KeyOf(flipped));
    if other.None? then cart[k := flipped] else MergeLine(cart, k, other.value)
  }

  /** Line `k`'s items join line `j`, and line `k` goes. */
  function MergeLine(cart: seq<LineItem>, k: nat, j: nat): seq<LineItem>
    requires k < |cart| && j < |cart|
  {
    RemoveAt(cart[j := cart[j].(quantity := cart[j].quantity + cart[k].quantity)], k)
  }

  /** The merging toggle keeps one line per combination and the item count. */
  lemma ToggleMergedKeepsUnique(cart: seq<LineItem>, cartId: string)
    requires Unique(cart)
    ensures Unique(ToggleSubscriptionMerged(cart, cartId))
    ensures ItemCount(ToggleSubscriptionMerged(cart, cartId)) == ItemCount(cart)
  {
    var at := IndexOfCartId(cart, cartId);
    if at.Some? {
      ToggleLineKeepsUnique(cart, at.value);
    }
  }

  lemma ToggleLineKeepsUnique(cart: seq<LineItem>, k: nat)
    requires Unique(cart) && k < |cart|
    ensures Unique(ToggleLine(cart, k)) && ItemCount(ToggleLine(cart, k)) == ItemCount(cart)
  {
    var flipped := cart[k].(subscription := !cart[k].subscription);
    var other := IndexOfKey(cart, KeyOf(flipped));
    if other.None? {
      FlipInPlace(cart, k);
    } else {
      var j := other.value;
      assert KeyOf(cart[j]) != KeyOf(cart[k]);
      MergeInto(cart, k, j);
    }
  }

  /** Flipping line `k` to a combination no line holds keeps the lines unique. */
  lemma FlipInPlace(cart: seq<LineItem>, k: nat)
    requires Unique(cart) && k < |cart|
    requires !HasLine(cart, KeyOf(cart[k].(subscription := !cart[k].subscription)))
    ensures var r := cart[k := cart[k].(subscription := !cart[k].subscription)];
      Unique(r) && ItemCount(r) == ItemCount(cart)
  {
    var flipped := cart[k].(subscription := !cart[k].subscription);
    var r := cart[k := flipped];
    forall i, j | 0 <= i < j < |r| ensures KeyOf(r[i]) != KeyOf(r[j]) {
      if i == k { assert KeyOf(r[j]) == KeyOf(cart[j]); }
      else if j == k { assert KeyOf(r[i]) == KeyOf(cart[i]); }
    }
    ItemCountUpdate(cart, k, flipped);
  }

  /** Moving the items of line `k` into line `j` and dropping line `k` keeps
      the lines unique and the item count. */
  lemma MergeInto(cart: seq<LineItem>, k: nat, j: nat)
    requires Unique(cart) && k < |cart| && j < |cart| && j != k
    ensures Unique(MergeLine(cart, k, j)) && ItemCount(MergeLine(cart, k, j)) == ItemCount(cart)
  {
    var bumped := cart[j := cart[j].(quantity := cart[j].quantity + cart[k].quantity)];
    assert forall i :: 0 <= i < |bumped| ==> KeyOf(bumped[i]) == KeyOf(cart[i]);
    RemoveAtKeepsUnique(bumped, k);
    ItemCountUpdate(cart, j, bumped[j]);
    RemoveAtCount(bumped, k);
  }

  lemma RemoveAtKeepsUnique(cart: seq<LineItem>, k: nat)
    requires k < |cart| && Unique(cart)
    ensures Unique(RemoveAt(cart, k))
  {
    var r := RemoveAt(cart, k);
    forall i, j | 0 <= i < j < |r| ensures KeyOf(r[i]) != KeyOf(r[j]) {
      var i' := if i < k then i else i + 1;
      var j' := if j < k then j else j + 1;
      assert r[i] == cart[i'] && r[j] == cart[j'];
    }
  }

  lemma RemoveAtCount(cart: seq<LineItem>, k: nat)
    requires k < |cart|
    ensures ItemCount(RemoveAt(cart, k)) == ItemCount(cart) - cart[k].quantity
  {
    var front, back := cart[..k], cart[k + 1..];
    assert cart == (front + [cart[k]]) + back;
    ItemCountAppend(front + [cart[k]], back);
    ItemCountAppend(front, [cart[k]]);
    ItemCountAppend(front, back);
  }

  /** After the merging toggle the product is held in the flipped combination. */
  lemma ToggleMergedFlips(cart: seq<LineItem>, cartId: string, k: nat)
    requires Unique(cart) && k < |cart| && cart[k].cartId == cartId
    requires forall i :: 0 <= i < k ==> cart[i].cartId != cartId
    ensures HasLine(ToggleSubscriptionMerged(cart, cartId),
                    LineKey(cart[k].id, cart[k].size, !cart[k].subscription))
  {
    IndexOfFirst(cart, cartId, k);
    assert ToggleSubscriptionMerged(cart, cartId) == ToggleLine(cart, k);
    ToggleLineFlips(cart, k);
  }

  lemma ToggleLineFlips(cart: seq<LineItem>, k: nat)
    requires Unique(cart) && k < |cart|
    ensures HasLine(ToggleLine(cart, k), LineKey(cart[k].id, cart[k].size, !cart[k].subscription))
  {
    var flipped := cart[k].(subscription := !cart[k].subscription);
    var other := IndexOfKey(cart, KeyOf(flipped));
    if other.None? {
      assert KeyOf(ToggleLine(cart, k)[k]) == KeyOf(flipped);
    } else {
      var j := other.value;
      assert j != k;
      var r := MergeLine(cart, k, j);
      var at := if j < k then j else j - 1;
      assert KeyOf(r[at]) == KeyOf(cart[j]);
    }
  }

  lemma {:induction false} IndexOfFirst(cart: seq<LineItem>, cartId: string, k: nat)
    requires k < |cart| && cart[k].cartId == cartId
    requires forall i :: 0 <= i < k ==> cart[i].cartId != cartId
    ensures IndexOfCartId(cart, cartId) == Some(k)
  {
    if k > 0 {
      IndexOfFirst(cart[1..], cartId, k - 1);
    }
  }
}
