/** The product page: the loaded product, the chosen size, quantity and
    subscription, and the request it hands to the cart. */
module ProductDetail {
  import opened Wrappers
  import opened Text
  import opened CartReducer

  /** A product as the product endpoint returns it: the cart's view of it and its sizes. */
  datatype LoadedProduct = LoadedProduct(item: Product, sizes: seq<string>)

  /** The arguments of `onAddToCart(product, options)`. */
  datatype AddRequest = AddRequest(product: Product, options: AddOptions)

  /** `sizes?.[0] || defaultSize || '100g'`: the empty string is falsy. */
  function InitialSize(p: LoadedProduct): (size: string)
    ensures size != ""
    ensures |p.sizes| > 0 && p.sizes[0] != "" ==> size == p.sizes[0]
    ensures (|p.sizes| == 0 || p.sizes[0] == "") && p.item.defaultSize != "" ==> size == p.item.defaultSize
    ensures (|p.sizes| == 0 || p.sizes[0] == "") && p.item.defaultSize == "" ==> size == "100g"
  {
    if |p.sizes| > 0 && p.sizes[0] != "" then p.sizes[0]
    else if p.item.defaultSize != "" then p.item.defaultSize
    else "100g"
  }

  class ProductPage {
    var product: Option<LoadedProduct>
    var selectedSize: string
    var quantity: int
    var subscription: bool
    var isLoading: bool

    /** The stepper never shows fewer than one item. */
    predicate Valid()
      reads this
    {
      quantity >= 1
    }

    constructor ()
      ensures Valid()
      ensures product == None && selectedSize == "" && quantity == 1 && !subscription && isLoading
    {
      product := None;
      selectedSize := "";
      quantity := 1;
      subscription := false;
      isLoading := true;
    }

    /** The end of `fetchProduct`: a product found sets the product and its
        initial size; loading ends either way. */
    method LoadProduct(fetched: Option<LoadedProduct>)
      modifies this
      ensures fetched.Some? ==> product == fetched && selectedSize == InitialSize(fetched.value)
      ensures fetched.None? ==> product == old(product) && selectedSize == old(selectedSize)
      ensures quantity == old(quantity) && subscription == old(subscription) && !isLoading
    {
      if fetched.Some? {
        product := fetched;
        selectedSize := InitialSize(fetched.value);
      }
      isLoading := false;
    }

    /** The minus button: `Math.max(1, quantity - 1)`. */
    method Decrement()
      requires Valid()
      modifies this`quantity
      ensures Valid()
      ensures quantity == if old(quantity) > 1 then old(quantity) - 1 else 1
    {
      quantity := if quantity - 1 > 1 then quantity - 1 else 1;
    }

    /** The plus button. */
    method Increment()
      requires Valid()
      modifies this`quantity
      ensures Valid() && quantity == old(quantity) + 1
    {
      quantity := quantity + 1;
    }

    method SelectSize(size: string)
      modifies this`selectedSize
      ensures selectedSize == size
    {
      selectedSize := size;
    }

    method ToggleSubscription()
      modifies this`subscription
      ensures subscription == !old(subscription)
    {
      subscription := !subscription;
    }

    /** `handleAddToCart`: nothing without a product; otherwise the product
        with exactly the chosen size, quantity and subscription. */
    method HandleAddToCart() returns (request: Option<AddRequest>)
      requires Valid()
      ensures product.None? <==> request.None?
      ensures request.Some? ==>
        && request.value.product == product.value.item
        && request.value.options.size == selectedSize
        && request.value.options.subscription == subscription
        && Quantity(request.value.options.quantity) == quantity
    {
      if product.Some? {
        QuantityOfNumber(quantity);
        request := Some(AddRequest(product.value.item,
                                   AddOptions(selectedSize, subscription, Some(IntToDecimal(quantity)))));
      } else {
        request := None;
      }
    }
  }

  /** Adding from the product page to an empty cart gives one line holding the
      chosen quantity, in the chosen size, under the chosen plan. */
  lemma AddFromPageToEmptyCart(request: AddRequest, now: int, q: int)
    requires q >= 1 && request.options.quantity == Some(IntToDecimal(q)) && request.options.size != ""
    ensures var cart := AddToCart([], Some(request.product), request.options, now);
      && |cart| == 1
      && cart[0].quantity == q
      && cart[0].size == request.options.size
      && cart[0].subscription == request.options.subscription
  {
    QuantityOfNumber(q);
  }
}
