/** The shopping cart of the client: an ordered list of line items, with the
    updaters the application hands to its cart state (add, patch, remove)
    and the integer folds the cart views display. */
module CartReducer {
  import opened Wrappers
  import opened Text
  import opened Lists

  /** A product as the shop pages hand it to `addToCart`. */
  datatype Product = Product(id: string, name: string, price: int, defaultSize: string)

  /** One line of the cart: a product in a size, bought once or on subscription. */
  datatype LineItem = LineItem(
    cartId: string,
    id: string,
    name: string,
    price: int,
    size: string,
    subscription: bool,
    quantity: int)

  /** The `options` argument of `addToCart`. `size` is `""` when absent;
      `quantity` is the text `parseInt` reads (`None` when absent). */
  datatype AddOptions = AddOptions(size: string, subscription: bool, quantity: Option<string>)

  /** The keys an `updates` object may carry; `None` for a key it does not carry. */
  datatype Patch = Patch(
    cartId: Option<string>,
    id: Option<string>,
    name: Option<string>,
    price: Option<int>,
    size: Option<string>,
    subscription: Option<bool>,
    quantity: Option<int>)

  /** The triple a cart line is merged on. */
  datatype LineKey = LineKey(id: string, size: string, subscription: bool)

  function KeyOf(line: LineItem): LineKey {
    LineKey(line.id, line.size, line.subscription)
  }

  /** At most one line per (product id, size, subscription). */
  predicate Unique(cart: seq<LineItem>) {
    forall i, j :: 0 <= i < j < |cart| ==> KeyOf(cart[i]) != KeyOf(cart[j])
  }

  predicate AllPositive(cart: seq<LineItem>) {
    forall i :: 0 <= i < |cart| ==> cart[i].quantity >= 1
  }

  // ----- addToCart ------------------------------------------------------

  /** The size a new line gets: the requested one, else the product's
      default, else "standard" (an empty string counts as absent). */
  function ChosenSize(p: Product, opts: AddOptions): (size: string)
    ensures size != ""
    ensures opts.size != "" ==> size == opts.size
    ensures opts.size == "" && p.defaultSize != "" ==> size == p.defaultSize
    ensures opts.size == "" && p.defaultSize == "" ==> size == "standard"
  {
    var defaultSize := if p.defaultSize != "" then p.defaultSize else "standard";
    if opts.size != "" then opts.size else defaultSize
  }

  /** `Math.max(1, parseInt(options.quantity) || 1)`: `NaN` and 0 fall back to 1. */
  function Quantity(arg: Option<string>): (q: int)
    ensures q >= 1
  {
    var n := if arg.Some? then ParseIntOr(arg.value, 1) else 1;
    if n > 1 then n else 1
  }

  /** A whole-number quantity passed in is kept when positive, otherwise 1. */
  lemma QuantityOfNumber(k: int)
    ensures Quantity(Some(IntToDecimal(k))) == if k >= 1 then k else 1
  {
    ParseIntOfDecimal(k);
  }

  /** An absent or unreadable quantity means one item. */
  lemma QuantityDefault(arg: Option<string>)
    requires arg.None? || ParseInt(arg.value).None?
    ensures Quantity(arg) == 1
  {
  }

  /** The id of a new line: `${id}-${size}-${subscription}-${now}`. */
  function NewCartId(id: string, size: string, subscription: bool, now: int): string {
    id + "-" + size + "-" + (if subscription then "true" else "false") + "-" + IntToDecimal(now)
  }

  predicate HasLine(cart: seq<LineItem>, key: LineKey) {
    exists i :: 0 <= i < |cart| && KeyOf(cart[i]) == key
  }

  /** Every line with the key gets `q` more items; the others are untouched. */
  function Bump(cart: seq<LineItem>, key: LineKey, q: int): (r: seq<LineItem>)
    ensures |r| == |cart|
  {
    seq(|cart|, i requires 0 <= i < |cart| =>
      if KeyOf(cart[i]) == key then cart[i].(quantity := cart[i].quantity + q) else cart[i])
  }

  function KeyFor(p: Product, opts: AddOptions): LineKey {
    LineKey(p.id, ChosenSize(p, opts), opts.subscription)
  }

  /** The line a product starts when its combination is not in the cart yet. */
  function NewLine(p: Product, opts: AddOptions, now: int): LineItem {
    var key := KeyFor(p, opts);
    LineItem(NewCartId(p.id, key.size, key.subscription, now),
             p.id, p.name, p.price, key.size, key.subscription, Quantity(opts.quantity))
  }

  /** `addToCart(product, options)`, with `now` standing for `Date.now()`;
      `None` stands for a product that is not an object. */
  function AddToCart(cart: seq<LineItem>, product: Option<Product>, opts: AddOptions, now: int)
    : (r: seq<LineItem>)
    ensures product.None? ==> r == cart
    ensures product.Some? ==> |r| == |cart| || |r| == |cart| + 1
  {
    if product.None? then cart
    else if HasLine(cart, KeyFor(product.value, opts)) then
      Bump(cart, KeyFor(product.value, opts), Quantity(opts.quantity))
    else cart + [NewLine(product.value, opts, now)]
  }

  /** In a duplicate-free cart, bumping a key present at `k` changes line `k` only. */
  lemma BumpOne(cart: seq<LineItem>, key: LineKey, q: int, k: int)
    requires Unique(cart)
    requires 0 <= k < |cart| && KeyOf(cart[k]) == key
    ensures Bump(cart, key, q) == cart[k := cart[k].(quantity := cart[k].quantity + q)]
  {
    var r := Bump(cart, key, q);
    forall i | 0 <= i < |cart| && i != k
      ensures r[i] == cart[i]
    {
      if i < k { assert KeyOf(cart[i]) != KeyOf(cart[k]); }
      else { assert KeyOf(cart[k]) != KeyOf(cart[i]); }
    }
  }

  /** Adding a combination already in a duplicate-free cart raises that one
      line's quantity by the incoming quantity and changes nothing else. */
  lemma AddMerges(cart: seq<LineItem>, p: Product, opts: AddOptions, now: int, k: int)
    requires Unique(cart)
    requires 0 <= k < |cart| && KeyOf(cart[k]) == KeyFor(p, opts)
    ensures AddToCart(cart, Some(p), opts, now)
         == cart[k := cart[k].(quantity := cart[k].quantity + Quantity(opts.quantity))]
  {
    assert HasLine(cart, KeyFor(p, opts));
    BumpOne(cart, KeyFor(p, opts), Quantity(opts.quantity), k);
  }

  /** Adding a new combination appends exactly one line, with the chosen
      size, subscription and quantity, after the untouched earlier lines. */
  lemma AddAppends(cart: seq<LineItem>, p: Product, opts: AddOptions, now: int)
    requires !HasLine(cart, KeyFor(p, opts))
    ensures var r := AddToCart(cart, Some(p), opts, now);
      && |r| == |cart| + 1
      && r[..|cart|] == cart
      && KeyOf(r[|cart|]) == KeyFor(p, opts)
      && r[|cart|].quantity == Quantity(opts.quantity)
      && r[|cart|].name == p.name && r[|cart|].price == p.price
  {
  }

  /** `addToCart` never creates a second line for a (id, size, subscription) triple. */
  lemma AddPreservesUnique(cart: seq<LineItem>, product: Option<Product>, opts: AddOptions, now: int)
    requires Unique(cart)
    ensures Unique(AddToCart(cart, product, opts, now))
  {
    if product.Some? {
      var key := KeyFor(product.value, opts);
      var r := AddToCart(cart, product, opts, now);
      if HasLine(cart, key) {
        assert forall i :: 0 <= i < |r| ==> KeyOf(r[i]) == KeyOf(cart[i]);
      } else {
        assert r[..|cart|] == cart;
        forall i, j | 0 <= i < j < |r| ensures KeyOf(r[i]) != KeyOf(r[j]) {
          if j == |cart| {
            assert r[i] == cart[i];
          } else {
            assert r[i] == cart[i] && r[j] == cart[j];
          }
        }
      }
    }
  }

  /** Quantities stay at least 1 under `addToCart`. */
  lemma AddKeepsPositive(cart: seq<LineItem>, product: Option<Product>, opts: AddOptions, now: int)
    requires AllPositive(cart)
    ensures AllPositive(AddToCart(cart, product, opts, now))
  {
  }

  /** In a duplicate-free cart, adding raises the item count by exactly the added quantity. */
  lemma AddRaisesCount(cart: seq<LineItem>, p: Product, opts: AddOptions, now: int)
    requires Unique(cart)
    ensures ItemCount(AddToCart(cart, Some(p), opts, now)) == ItemCount(cart) + Quantity(opts.quantity)
  {
    var key := KeyFor(p, opts);
    var q := Quantity(opts.quantity);
    if HasLine(cart, key) {
      var k :| 0 <= k < |cart| && KeyOf(cart[k]) == key;
      AddMerges(cart, p, opts, now, k);
      ItemCountUpdate(cart, k, cart[k].(quantity := cart[k].quantity + q));
    } else {
      var r := AddToCart(cart, Some(p), opts, now);
      assert r == r[..|cart|] + [r[|cart|]];
      ItemCountAppend(cart, [r[|cart|]]);
    }
  }

  // ----- updateCartItem -------------------------------------------------

  /** `{...item, ...updates}`: every key the patch carries overrides the line's. */
  function ApplyPatch(item: LineItem, u: Patch): LineItem {
    LineItem(
      u.cartId.GetOr(item.cartId), u.id.GetOr(item.id), u.name.GetOr(item.name),
      u.price.GetOr(item.price), u.size.GetOr(item.size),
      u.subscription.GetOr(item.subscription), u.quantity.GetOr(item.quantity))
  }

  /** `updateCartItem(cartId, updates)`; `None` stands for updates that are not an object. */
  function UpdateCartItem(cart: seq<LineItem>, cartId: string, updates: Option<Patch>)
    : (r: seq<LineItem>)
    ensures |r| == |cart|
    ensures cartId == "" || updates.None? ==> r == cart
    ensures forall i :: 0 <= i < |cart| && cart[i].cartId != cartId ==> r[i] == cart[i]
    ensures updates.Some? && cartId != "" ==>
      forall i :: 0 <= i < |cart| && cart[i].cartId == cartId ==> r[i] == ApplyPatch(cart[i], updates.value)
  {
    if cartId == "" || updates.None? then cart
    else
      seq(|cart|, i requires 0 <= i < |cart| =>
        if cart[i].cartId == cartId then ApplyPatch(cart[i], updates.value) else cart[i])
  }

  // ----- removeFromCart -------------------------------------------------

  function OtherThan(cartId: string): LineItem -> bool {
    (line: LineItem) => line.cartId != cartId
  }

  function Holding(cartId: string): LineItem -> bool {
    (line: LineItem) => line.cartId == cartId
  }

  /** `removeFromCart(cartId)`: drops the lines with that id; an empty id is ignored. */
  function RemoveFromCart(cart: seq<LineItem>, cartId: string): (r: seq<LineItem>)
    ensures cartId == "" ==> r == cart
    ensures cartId != "" ==> forall i :: 0 <= i < |r| ==> r[i].cartId != cartId
    ensures forall i :: 0 <= i < |cart| && cart[i].cartId != cartId ==> cart[i] in r
    ensures IsSubsequence(r, cart)
  {
    if cartId == "" then
      SubsequenceOfSelf(cart);
      cart
    else
      FilterIsSubsequence(cart, OtherThan(cartId));
      Filter(cart, OtherThan(cartId))
  }

  /** Removing a line lowers the item count by exactly the quantities removed. */
  lemma {:induction false} RemoveLowersCount(cart: seq<LineItem>, cartId: string)
    requires cartId != ""
    ensures ItemCount(cart)
         == ItemCount(RemoveFromCart(cart, cartId)) + ItemCount(Filter(cart, Holding(cartId)))
  {
    if cart != [] {
      RemoveLowersCount(cart[1..], cartId);
    }
  }

  // ----- folds ----------------------------------------------------------

  /** The number of items: the sum of the line quantities. */
  function ItemCount(cart: seq<LineItem>): int {
    if cart == [] then 0 else cart[0].quantity + ItemCount(cart[1..])
  }

  /** The subtotal: the sum of price times quantity. */
  function Subtotal(cart: seq<LineItem>): int {
    if cart == [] then 0 else cart[0].price * cart[0].quantity + Subtotal(cart[1..])
  }

  const FreeShippingThreshold: int := 499
  const ShippingFee: int := 49

  /** Shipping is free from the threshold on. */
  function Shipping(subtotal: int): (fee: int)
    ensures fee == 0 <==> subtotal >= FreeShippingThreshold
    ensures fee != 0 ==> fee == ShippingFee
  {
    if subtotal >= FreeShippingThreshold then 0 else ShippingFee
  }

  lemma {:induction false} ItemCountAppend(a: seq<LineItem>, b: seq<LineItem>)
    ensures ItemCount(a + b) == ItemCount(a) + ItemCount(b)
  {
    if a != [] {
      assert (a + b)[0] == a[0];
      assert (a + b)[1..] == a[1..] + b;
      ItemCountAppend(a[1..], b);
    } else {
      assert a + b == b;
    }
  }

  lemma {:induction false} SubtotalAppend(a: seq<LineItem>, b: seq<LineItem>)
    ensures Subtotal(a + b) == Subtotal(a) + Subtotal(b)
  {
    if a != [] {
      assert (a + b)[0] == a[0];
      assert (a + b)[1..] == a[1..] + b;
      SubtotalAppend(a[1..], b);
    } else {
      assert a + b == b;
    }
  }

  /** Replacing one line changes the item count by the difference of the two quantities. */
  lemma {:induction false} ItemCountUpdate(cart: seq<LineItem>, k: int, line: LineItem)
    requires 0 <= k < |cart|
    ensures ItemCount(cart[k := line]) == ItemCount(cart) - cart[k].quantity + line.quantity
  {
    if k > 0 {
      assert cart[k := line][1..] == cart[1..][k - 1 := line];
      ItemCountUpdate(cart[1..], k - 1, line);
    } else {
      assert cart[k := line][1..] == cart[1..];
    }
  }

  /** With positive quantities the item count is at least the number of lines. */
  lemma {:induction false} ItemCountAtLeastLines(cart: seq<LineItem>)
    requires AllPositive(cart)
    ensures ItemCount(cart) >= |cart|
  {
    if cart != [] {
      ItemCountAtLeastLines(cart[1..]);
    }
  }

  /** With non-negative prices and quantities the subtotal is never negative. */
  lemma {:induction false} SubtotalNonNegative(cart: seq<LineItem>)
    requires forall i :: 0 <= i < |cart| ==> cart[i].price >= 0 && cart[i].quantity >= 0
    ensures Subtotal(cart) >= 0
  {
    if cart != [] {
      SubtotalNonNegative(cart[1..]);
    }
  }
}
