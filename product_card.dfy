/**
 * The product card: its add-to-cart merge rule, its wishlist toggle, and the price it shows.
 *
 * The card finds an existing line by the product's `_id` (`dbId`) but updates lines by their
 * `id`; the reducer sets `id` from `_id` when it adds a line, so on a cart where every line has
 * `dbId == Some(id)` (`Keyed`) the two keys agree.
 */
module ProductCard {
  import opened Wrappers
  import Lists
  import opened Products
  import opened CartContext

  // ---------------------------------------------------------------------------
  // add to cart

  /** `{ ...product, quantity: 1, selectedSize, selectedColor }` as an ADD_TO_CART payload. */
  function CartPayload(product: ProductType, size: string, color: string): AddPayload
  {
    AddPayload(
      dbId := Some(product.dbId),
      name := product.name,
      price := product.price,
      salePrice := Some(product.salePrice),
      sku := Some(product.sku),
      thumbnails := Some(product.thumbnails),
      quantity := Some(1),
      selectedSize := Some(size),
      selectedColor := Some(color),
      quantityPurchase := None)
  }

  /** `cartArray.find(item => item._id === dbId)`, as the index of the first such line. */
  function FindLine(c: seq<CartItem>, dbId: string): (r: Option<nat>)
    ensures r.Some? ==> r.value < |c| && c[r.value].dbId == Some(dbId)
    ensures r.Some? ==> forall j :: 0 <= j < r.value ==> c[j].dbId != Some(dbId)
    ensures r.None? ==> forall j :: 0 <= j < |c| ==> c[j].dbId != Some(dbId)
    decreases |c|
  {
    if c == [] then None
    else if c[0].dbId == Some(dbId) then Some(0)
    else
      match FindLine(c[1..], dbId)
      case None => None
      case Some(i) => Some(i + 1)
  }

  /** JavaScript's `a || b` on strings. */
  function OrElse(a: string, b: string): string
  {
    if a != "" then a else b
  }

  /**
   * The cart after `handleAddToCart(product)`: for a product not in the cart, ADD_TO_CART then
   * UPDATE_CART to quantity 1; otherwise one UPDATE_CART raising the existing line's quantity
   * by one (`existingItem.quantity || 0` is the quantity itself for every integer).
   */
  function AddOrIncrement(cart: CartState, product: ProductType, size: string, color: string): CartState
  {
    match FindLine(cart.cartArray, product.dbId)
    case None =>
      var added := CartReducer(cart, CartContext.AddToCart(CartPayload(product, size, color)));
      CartReducer(added, UpdateCart(product.dbId, 1, size, color))
    case Some(i) =>
      var existing := cart.cartArray[i];
      CartReducer(cart, UpdateCart(product.dbId, existing.quantity + 1,
        OrElse(size, existing.selectedSize), OrElse(color, existing.selectedColor)))
  }

  /** Every line's `id` is its `_id`. */
  ghost predicate Keyed(c: seq<CartItem>)
  {
    forall i :: 0 <= i < |c| ==> c[i].dbId == Some(c[i].id)
  }

  /** At most one line per `_id`. */
  ghost predicate UniqueIds(c: seq<CartItem>)
  {
    forall i, j :: 0 <= i < j < |c| ==> c[i].dbId != c[j].dbId
  }

  ghost predicate OneLinePerProduct(c: seq<CartItem>)
  {
    Keyed(c) && UniqueIds(c)
  }

  /** The line a new product gets: quantity 1 and the chosen size and color. */
  function NewLine(product: ProductType, size: string, color: string): CartItem
  {
    CartItem(product.dbId, Some(product.dbId), product.name, product.price, product.salePrice,
      product.sku, product.thumbnails, 0, 1, size, color)
  }

  /** A product not yet in a keyed cart is appended as one line with quantity 1. */
  lemma AddNewProduct(cart: CartState, product: ProductType, size: string, color: string)
    requires Keyed(cart.cartArray)
    requires forall j :: 0 <= j < |cart.cartArray| ==> cart.cartArray[j].dbId != Some(product.dbId)
    ensures AddOrIncrement(cart, product, size, color).cartArray == cart.cartArray + [NewLine(product, size, color)]
  {
    var c := cart.cartArray;
    var added := CartReducer(cart, CartContext.AddToCart(CartPayload(product, size, color))).cartArray;
    assert added == c + [NewItem(CartPayload(product, size, color))];
    var r := AddOrIncrement(cart, product, size, color).cartArray;
    UpdateSetsMatchingLines(CartState(added), product.dbId, 1, size, color);
    forall j | 0 <= j < |c| ensures added[j].id != product.dbId {
      assert added[j] == c[j];
    }
    assert r == c + [NewLine(product, size, color)];
  }

  /**
   * A product already in a cart with one line per product keeps the line count; its line's
   * quantity grows by exactly one, a non-empty chosen size or color replaces the stored one,
   * and every other line is unchanged.
   */
  lemma AddExistingProduct(cart: CartState, product: ProductType, size: string, color: string, i: nat)
    requires OneLinePerProduct(cart.cartArray)
    requires i < |cart.cartArray| && cart.cartArray[i].dbId == Some(product.dbId)
    ensures var c := cart.cartArray;
      var r := AddOrIncrement(cart, product, size, color).cartArray;
      |r| == |c|
      && r[i] == c[i].(quantity := c[i].quantity + 1,
                       selectedSize := if size != "" then size else c[i].selectedSize,
                       selectedColor := if color != "" then color else c[i].selectedColor)
      && (forall j :: 0 <= j < |c| && j != i ==> r[j] == c[j])
  {
    var c := cart.cartArray;
    var found := FindLine(c, product.dbId);
    assert found.Some?;
    assert c[found.value].dbId == c[i].dbId;
    assert found == Some(i);
    var existing := c[i];
    UpdateSetsMatchingLines(cart, product.dbId, existing.quantity + 1,
      OrElse(size, existing.selectedSize), OrElse(color, existing.selectedColor));
    forall j | 0 <= j < |c| && j != i ensures c[j].id != product.dbId {
      assert c[j].dbId != c[i].dbId;
    }
  }

  /** On a keyed cart, adding keeps both halves of `OneLinePerProduct`: lines stay keyed and unique. */
  lemma AddOrIncrementKeepsOneLinePerProduct(cart: CartState, product: ProductType, size: string, color: string)
    requires OneLinePerProduct(cart.cartArray)
    ensures OneLinePerProduct(AddOrIncrement(cart, product, size, color).cartArray)
  {
    var c := cart.cartArray;
    var r := AddOrIncrement(cart, product, size, color).cartArray;
    match FindLine(c, product.dbId)
    case None =>
      AddNewProduct(cart, product, size, color);
      assert r == c + [NewLine(product, size, color)];
    case Some(i) =>
      AddExistingProduct(cart, product, size, color, i);
      forall j | 0 <= j < |c| ensures r[j].dbId == c[j].dbId && r[j].id == c[j].id {
      }
  }

  /**
   * Adding to cart never creates a second line for a product: on any cart with at most one
   * line per `_id` (keyed or not, such as one installed by LOAD_CART), it still has at most one.
   */
  lemma AddOrIncrementKeepsUniqueIds(cart: CartState, product: ProductType, size: string, color: string)
    requires UniqueIds(cart.cartArray)
    ensures UniqueIds(AddOrIncrement(cart, product, size, color).cartArray)
  {
    var c := cart.cartArray;
    var r := AddOrIncrement(cart, product, size, color).cartArray;
    match FindLine(c, product.dbId)
    case None =>
      var added := CartReducer(cart, CartContext.AddToCart(CartPayload(product, size, color)));
      assert added.cartArray == c + [NewItem(CartPayload(product, size, color))];
      UpdateSetsMatchingLines(added, product.dbId, 1, size, color);
      assert |r| == |c| + 1;
      forall j | 0 <= j < |r| ensures r[j].dbId == added.cartArray[j].dbId {
      }
      assert r[|c|].dbId == Some(product.dbId);
      forall i, j | 0 <= i < j < |r| ensures r[i].dbId != r[j].dbId {
        if j < |c| {
          assert r[i].dbId == c[i].dbId && r[j].dbId == c[j].dbId;
        } else {
          assert r[i].dbId == c[i].dbId;
        }
      }
    case Some(i) =>
      var existing := c[i];
      UpdateSetsMatchingLines(cart, product.dbId, existing.quantity + 1,
        OrElse(size, existing.selectedSize), OrElse(color, existing.selectedColor));
      forall j | 0 <= j < |c| ensures r[j].dbId == c[j].dbId {
      }
  }

  /** One click on "Add To Cart": the product and the card's size and color at that moment. */
  datatype AddRequest = AddRequest(product: ProductType, size: string, color: string)

  function AddAll(cart: CartState, requests: seq<AddRequest>): CartState
    decreases |requests|
  {
    if requests == [] then cart
    else
      var q := requests[0];
      AddAll(AddOrIncrement(cart, q.product, q.size, q.color), requests[1..])
  }

  /** Any sequence of add-to-cart clicks keeps one line per product. */
  lemma {:induction false} AddAllKeepsOneLinePerProduct(cart: CartState, requests: seq<AddRequest>)
    requires OneLinePerProduct(cart.cartArray)
    ensures OneLinePerProduct(AddAll(cart, requests).cartArray)
    decreases |requests|
  {
    if requests != [] {
      var q := requests[0];
      AddOrIncrementKeepsOneLinePerProduct(cart, q.product, q.size, q.color);
      AddAllKeepsOneLinePerProduct(AddOrIncrement(cart, q.product, q.size, q.color), requests[1..]);
    }
  }

  /** Any sequence of add-to-cart clicks on a cart with at most one line per `_id` keeps it so. */
  lemma {:induction false} AddAllKeepsUniqueIds(cart: CartState, requests: seq<AddRequest>)
    requires UniqueIds(cart.cartArray)
    ensures UniqueIds(AddAll(cart, requests).cartArray)
    decreases |requests|
  {
    if requests != [] {
      var q := requests[0];
      AddOrIncrementKeepsUniqueIds(cart, q.product, q.size, q.color);
      AddAllKeepsUniqueIds(AddOrIncrement(cart, q.product, q.size, q.color), requests[1..]);
    }
  }

  /** The empty cart has one line per product, so every click sequence from it does too. */
  lemma FromEmptyCart(requests: seq<AddRequest>)
    ensures OneLinePerProduct(AddAll(InitialState, requests).cartArray)
  {
    AddAllKeepsOneLinePerProduct(InitialState, requests);
  }

  // ---------------------------------------------------------------------------
  // wishlist toggle

  /** `wishlistArray.some(item => item._id === dbId)`. */
  predicate InWishlist(w: seq<ProductType>, dbId: string)
  {
    exists i :: 0 <= i < |w| && w[i].dbId == dbId
  }

  function NotDbId(dbId: string): ProductType -> bool
  {
    (item: ProductType) => item.dbId != dbId
  }

  /**
   * `handleAddToWishlist`: remove by `_id` when present, otherwise add. The wishlist reducer
   * is taken to append on add and to filter by `_id` on remove.
   */
  function ToggleWishlist(w: seq<ProductType>, product: ProductType): seq<ProductType>
  {
    if InWishlist(w, product.dbId) then Lists.Filter(w, NotDbId(product.dbId)) else w + [product]
  }

  /** A toggle flips the product's membership and leaves every other product's alone. */
  lemma ToggleFlipsMembership(w: seq<ProductType>, product: ProductType, other: string)
    requires other != product.dbId
    ensures InWishlist(ToggleWishlist(w, product), product.dbId) <==> !InWishlist(w, product.dbId)
    ensures InWishlist(ToggleWishlist(w, product), other) <==> InWishlist(w, other)
  {
    if InWishlist(w, product.dbId) {
      RemoveKeepsOthers(w, product.dbId, other);
    } else {
      AddKeepsOthers(w, product, other);
    }
  }

  /** Removing by `_id` drops that id and keeps every other id's membership. */
  lemma RemoveKeepsOthers(w: seq<ProductType>, dbId: string, other: string)
    requires other != dbId
    ensures !InWishlist(Lists.Filter(w, NotDbId(dbId)), dbId)
    ensures InWishlist(Lists.Filter(w, NotDbId(dbId)), other) <==> InWishlist(w, other)
  {
    RemoveDropsId(w, dbId);
    if InWishlist(w, other) {
      RemoveKeepsOther(w, dbId, other);
    }
    if InWishlist(Lists.Filter(w, NotDbId(dbId)), other) {
      RemovedComesFromList(w, dbId, other);
    }
  }

  lemma RemoveDropsId(w: seq<ProductType>, dbId: string)
    ensures !InWishlist(Lists.Filter(w, NotDbId(dbId)), dbId)
  {
    var r := Lists.Filter(w, NotDbId(dbId));
    forall k | 0 <= k < |r|
      ensures r[k].dbId != dbId
    {
      assert NotDbId(dbId)(r[k]);
    }
  }

  lemma RemoveKeepsOther(w: seq<ProductType>, dbId: string, other: string)
    requires other != dbId && InWishlist(w, other)
    ensures InWishlist(Lists.Filter(w, NotDbId(dbId)), other)
  {
    var r := Lists.Filter(w, NotDbId(dbId));
    var i :| 0 <= i < |w| && w[i].dbId == other;
    assert NotDbId(dbId)(w[i]);
    assert w[i] in r;
    var k :| 0 <= k < |r| && r[k] == w[i];
  }

  lemma RemovedComesFromList(w: seq<ProductType>, dbId: string, other: string)
    requires InWishlist(Lists.Filter(w, NotDbId(dbId)), other)
    ensures InWishlist(w, other)
  {
    var r := Lists.Filter(w, NotDbId(dbId));
    var k :| 0 <= k < |r| && r[k].dbId == other;
    assert r[k] in w;
    var i :| 0 <= i < |w| && w[i] == r[k];
  }

  /** Appending a product adds its id and keeps every other id's membership. */
  lemma AddKeepsOthers(w: seq<ProductType>, product: ProductType, other: string)
    requires other != product.dbId
    ensures InWishlist(w + [product], product.dbId)
    ensures InWishlist(w + [product], other) <==> InWishlist(w, other)
  {
    var r := w + [product];
    assert r[|w|].dbId == product.dbId;
    if InWishlist(r, other) {
      var k :| 0 <= k < |r| && r[k].dbId == other;
      assert k < |w| && w[k] == r[k];
    }
    if InWishlist(w, other) {
      var i :| 0 <= i < |w| && w[i].dbId == other;
      assert r[i] == w[i];
    }
  }

  /** Two toggles of the same product restore every product's membership. */
  lemma ToggleTwiceRestoresMembership(w: seq<ProductType>, product: ProductType, id: string)
    ensures InWishlist(ToggleWishlist(ToggleWishlist(w, product), product), id) <==> InWishlist(w, id)
  {
    var once := ToggleWishlist(w, product);
    if id == product.dbId {
      ToggleFlipsMembership(w, product, id + "x");
      ToggleFlipsMembership(once, product, id + "x");
    } else {
      ToggleFlipsMembership(w, product, id);
      ToggleFlipsMembership(once, product, id);
    }
  }

  // ---------------------------------------------------------------------------
  // price display

  /** `data.salePrice || data.price`: a sale price of 0 falls back to the list price. */
  function DisplayPrice(p: ProductType): int
  {
    if p.salePrice != 0 then p.salePrice else p.price
  }

  /** `data.salePrice && data.salePrice !== data.price`. */
  predicate ShowSaleBadge(p: ProductType)
  {
    p.salePrice != 0 && p.salePrice != p.price
  }

  /**
   * With the badge, the shown price is the sale price and differs from the struck-out list
   * price; without it, the shown price is the list price.
   */
  lemma BadgeAgreesWithPrice(p: ProductType)
    ensures ShowSaleBadge(p) ==> DisplayPrice(p) == p.salePrice && DisplayPrice(p) != p.price
    ensures !ShowSaleBadge(p) ==> DisplayPrice(p) == p.price
  {
  }

  // ---------------------------------------------------------------------------
  // the card and the shared state it dispatches to

  class ProductCardView {
    var cart: CartState
    var wishlist: seq<ProductType>
    var selectedSize: string
    var selectedColor: string
    var cartModalOpen: bool
    var wishlistModalOpen: bool

    constructor (cart0: CartState, wishlist0: seq<ProductType>)
      ensures cart == cart0 && wishlist == wishlist0
      ensures selectedSize == "" && selectedColor == "" && !cartModalOpen && !wishlistModalOpen
    {
      cart := cart0;
      wishlist := wishlist0;
      selectedSize := "";
      selectedColor := "";
      cartModalOpen := false;
      wishlistModalOpen := false;
    }

    /** Dispatches add-then-update or a single update, then opens the cart modal. */
    method HandleAddToCart(product: ProductType)
      modifies this
      ensures cart == AddOrIncrement(old(cart), product, selectedSize, selectedColor)
      ensures cartModalOpen
      ensures wishlist == old(wishlist) && wishlistModalOpen == old(wishlistModalOpen)
      ensures selectedSize == old(selectedSize) && selectedColor == old(selectedColor)
      ensures OneLinePerProduct(old(cart.cartArray)) ==> OneLinePerProduct(cart.cartArray)
    {
      ghost var before := cart;
      var found := FindLine(cart.cartArray, product.dbId);
      if found.None? {
        cart := CartReducer(cart, CartContext.AddToCart(CartPayload(product, selectedSize, selectedColor)));
        cart := CartReducer(cart, UpdateCart(product.dbId, 1, selectedSize, selectedColor));
      } else {
        var existing := cart.cartArray[found.value];
        cart := CartReducer(cart, UpdateCart(product.dbId, existing.quantity + 1,
          OrElse(selectedSize, existing.selectedSize), OrElse(selectedColor, existing.selectedColor)));
      }
      cartModalOpen := true;
      if OneLinePerProduct(before.cartArray) {
        AddOrIncrementKeepsOneLinePerProduct(before, product, selectedSize, selectedColor);
      }
    }

    /** Removes or adds the product, then opens the wishlist modal. */
    method HandleAddToWishlist(product: ProductType)
      modifies this
      ensures wishlist == ToggleWishlist(old(wishlist), product)
      ensures InWishlist(wishlist, product.dbId) <==> !InWishlist(old(wishlist), product.dbId)
      ensures wishlistModalOpen
      ensures cart == old(cart) && cartModalOpen == old(cartModalOpen)
      ensures selectedSize == old(selectedSize) && selectedColor == old(selectedColor)
    {
      if InWishlist(wishlist, product.dbId) {
        wishlist := Lists.Filter(wishlist, NotDbId(product.dbId));
      } else {
        wishlist := wishlist + [product];
      }
      wishlistModalOpen := true;
      ToggleFlipsMembership(old(wishlist), product, product.dbId + "x");
    }
  }
}
