/** The store section: a category filter with a preview cap, a wishlist, and
    the section's own cart controls, which work by product id. */
module ProductStore {
  import opened Lists
  import opened CartReducer

  datatype StoreProduct = StoreProduct(id: string, name: string, price: int, category: string)

  /** A cart line of another product than `productId`. */
  function OtherProduct(productId: string): LineItem -> bool {
    (line: LineItem) => line.id != productId
  }

  /** The `map` step of `updateCartQuantity`: every line of the product moved by `change`. */
  function RaiseAll(cart: seq<LineItem>, productId: string, change: int): seq<LineItem> {
    seq(|cart|, i requires 0 <= i < |cart| => Raised(cart[i], productId, change))
  }

  /** The `filter(Boolean)` step: a line of the product stays only with a
      positive quantity; every other line stays. */
  function Survives(productId: string): LineItem -> bool {
    (line: LineItem) => line.id != productId || line.quantity > 0
  }

  /** `updateCartQuantity(productId, change)`: every line of the product moves
      by `change`, and a line whose quantity would not stay positive goes. */
  function UpdateCartQuantity(cart: seq<LineItem>, productId: string, change: int): (r: seq<LineItem>)
    ensures r == Filter(RaiseAll(cart, productId, change), Survives(productId))
    ensures |r| <= |cart|
    ensures forall i :: 0 <= i < |r| && r[i].id == productId ==> r[i].quantity > 0
    ensures Filter(r, OtherProduct(productId)) == Filter(cart, OtherProduct(productId))
    ensures IsSubsequence(Filter(r, OtherProduct(productId)), r)
  {
    if cart == [] then []
    else
      var rest := UpdateCartQuantity(cart[1..], productId, change);
      var line := cart[0];
      var r :=
        if line.id != productId then [line] + rest
        else if line.quantity + change > 0 then [line.(quantity := line.quantity + change)] + rest
        else rest;
      RaiseAllStep(cart, productId, change);
      FilterIsSubsequence(r, OtherProduct(productId));
      r
  }

  /** One step of the `map` and `filter` over a non-empty cart. */
  lemma RaiseAllStep(cart: seq<LineItem>, productId: string, change: int)
    requires cart != []
    ensures var head := Raised(cart[0], productId, change);
      Filter(RaiseAll(cart, productId, change), Survives(productId))
      == (if Survives(productId)(head) then [head] else [])
         + Filter(RaiseAll(cart[1..], productId, change), Survives(productId))
  {
    var all := RaiseAll(cart, productId, change);
    assert all[0] == Raised(cart[0], productId, change);
    assert all[1..] == RaiseAll(cart[1..], productId, change);
  }

  /** A line after the product's quantity moved by `change`. */
  function Raised(line: LineItem, productId: string, change: int): (r: LineItem)
    ensures r.id == line.id && r.price == line.price
    ensures r.quantity == if line.id == productId then line.quantity + change else line.quantity
  {
    if line.id == productId then line.(quantity := line.quantity + change) else line
  }

  /** One step of `UpdateCartQuantity` when the head line survives. */
  lemma RaiseStep(cart: seq<LineItem>, productId: string, change: int)
    requires cart != [] && cart[0].quantity >= 1 && change >= 0
    ensures UpdateCartQuantity(cart, productId, change)
         == [Raised(cart[0], productId, change)] + UpdateCartQuantity(cart[1..], productId, change)
  {
  }

  /** Raising quantities never drops a line of positive quantity: each line of
      the product gains `change` in place. */
  lemma {:induction false} RaiseKeepsLines(cart: seq<LineItem>, productId: string, change: int)
    requires AllPositive(cart) && change >= 0
    ensures |UpdateCartQuantity(cart, productId, change)| == |cart|
    ensures forall i :: 0 <= i < |cart| ==>
      UpdateCartQuantity(cart, productId, change)[i] == Raised(cart[i], productId, change)
  {
    if cart != [] {
      var tail := cart[1..];
      assert AllPositive(tail) by {
        forall i | 0 <= i < |tail| ensures tail[i] == cart[i + 1] { }
      }
      RaiseKeepsLines(tail, productId, change);
      RaiseStep(cart, productId, change);
      var rest := UpdateCartQuantity(tail, productId, change);
      var r := [Raised(cart[0], productId, change)] + rest;
      forall i | 1 <= i < |cart| ensures r[i] == Raised(cart[i], productId, change) {
        assert r[i] == rest[i - 1] && cart[i] == tail[i - 1];
      }
    }
  }

  /** A cart line of the product `productId`. */
  function OfProduct(productId: string): LineItem -> bool {
    (line: LineItem) => line.id == productId
  }

  /** The item count moves by `change` for every line of the product. */
  lemma {:induction false} RaiseCount(cart: seq<LineItem>, productId: string, change: int)
    requires AllPositive(cart) && change >= 0
    ensures ItemCount(UpdateCartQuantity(cart, productId, change))
         == ItemCount(cart) + change * |Filter(cart, OfProduct(productId))|
  {
    if cart != [] {
      var tail := cart[1..];
      assert AllPositive(tail) by {
        forall i | 0 <= i < |tail| ensures tail[i] == cart[i + 1] { }
      }
      RaiseCount(tail, productId, change);
      var n := |Filter(tail, OfProduct(productId))|;
      var rest := UpdateCartQuantity(tail, productId, change);
      var head := if cart[0].id == productId then cart[0].(quantity := cart[0].quantity + change) else cart[0];
      assert UpdateCartQuantity(cart, productId, change) == [head] + rest;
      assert ([head] + rest)[1..] == rest;
      var k := if cart[0].id == productId then 1 else 0;
      assert |Filter(cart, OfProduct(productId))| == n + k;
      assert head.quantity == cart[0].quantity + change * k;
      Distribute(change, n, k);
    }
  }

  lemma Distribute(c: int, n: int, k: int)
    ensures c * (n + k) == c * n + c * k
  {
  }

  /** `removeFromCart(productId)`: every line of the product goes, the rest stay in order. */
  function RemoveProduct(cart: seq<LineItem>, productId: string): (r: seq<LineItem>)
    ensures forall i :: 0 <= i < |r| ==> r[i].id != productId
    ensures forall i :: 0 <= i < |cart| && cart[i].id != productId ==> cart[i] in r
    ensures IsSubsequence(r, cart)
  {
    FilterIsSubsequence(cart, OtherProduct(productId));
    Filter(cart, OtherProduct(productId))
  }

  /** Removing the product is lowering it by more than any of its quantities. */
  lemma {:induction false} RemoveIsLoweringAll(cart: seq<LineItem>, productId: string, change: int)
    requires forall i :: 0 <= i < |cart| && cart[i].id == productId ==> cart[i].quantity + change <= 0
    ensures UpdateCartQuantity(cart, productId, change) == RemoveProduct(cart, productId)
  {
    if cart != [] {
      RemoveIsLoweringAll(cart[1..], productId, change);
    }
  }

  /** `getTotalPrice`: the cart's subtotal; lines of one product contribute
      nothing once the product is removed. */
  lemma {:induction false} RemoveProductSubtotal(cart: seq<LineItem>, productId: string)
    ensures Subtotal(cart)
         == Subtotal(RemoveProduct(cart, productId))
          + Subtotal(Filter(cart, OfProduct(productId)))
  {
    if cart != [] {
      RemoveProductSubtotal(cart[1..], productId);
    }
  }

  /** A product in the chosen category, or any product for "all". */
  function InStoreCategory(category: string): StoreProduct -> bool {
    (p: StoreProduct) => category == "all" || p.category == category
  }

  const PreviewLimit := 6

  /** `filteredProducts`: the products of the chosen category, all of them for "all". */
  function FilterByCategory(products: seq<StoreProduct>, category: string): (r: seq<StoreProduct>)
    ensures forall i :: 0 <= i < |r| ==> (category == "all" || r[i].category == category)
    ensures category == "all" ==> r == products
    ensures forall i :: 0 <= i < |products| && products[i].category == category ==> products[i] in r
    ensures IsSubsequence(r, products)
  {
    if category == "all" then SubsequenceOfSelf(products); products
    else FilterIsSubsequence(products, InStoreCategory(category)); Filter(products, InStoreCategory(category))
  }

  /** `displayProducts`: the filtered products, at most six in preview. */
  function DisplayProducts(products: seq<StoreProduct>, category: string, preview: bool)
    : (r: seq<StoreProduct>)
    ensures preview ==> |r| <= PreviewLimit
    ensures !preview ==> r == FilterByCategory(products, category)
    ensures preview ==> r <= FilterByCategory(products, category)
    ensures forall i :: 0 <= i < |r| ==> (category == "all" || r[i].category == category)
    ensures IsSubsequence(r, products)
  {
    var filtered := FilterByCategory(products, category);
    var r := if preview then Take(filtered, PreviewLimit) else filtered;
    PrefixIsSubsequence(r, filtered);
    SubsequenceTrans(r, filtered, products);
    r
  }
}
