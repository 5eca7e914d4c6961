/**
 * The cart reducer of `CartContext`: a pure function from a state and an action to the next
 * state. Items are kept in insertion order; adding never merges duplicates.
 */
module CartContext {
  import opened Wrappers
  import Lists

  /** A cart line. `id` is the key the reducer removes and updates by; `dbId` is the product's `_id`. */
  datatype CartItem = CartItem(
    id: string,
    dbId: Option<string>,
    name: string,
    price: int,
    salePrice: int,
    sku: string,
    thumbnails: seq<string>,
    quantityPurchase: int,
    quantity: int,
    selectedSize: string,
    selectedColor: string)

  /** The ADD_TO_CART payload: a product whose optional fields may be null or undefined. */
  datatype AddPayload = AddPayload(
    dbId: Option<string>,
    name: string,
    price: int,
    salePrice: Option<int>,
    sku: Option<string>,
    thumbnails: Option<seq<string>>,
    quantity: Option<int>,
    selectedSize: Option<string>,
    selectedColor: Option<string>,
    quantityPurchase: Option<int>)

  datatype CartAction =
    | AddToCart(payload: AddPayload)
    | RemoveFromCart(itemId: string)
    | UpdateCart(itemId: string, quantity: int, selectedSize: string, selectedColor: string)
    | LoadCart(items: seq<CartItem>)
    | OtherAction(kind: string)

  datatype CartState = CartState(cartArray: seq<CartItem>)

  const InitialState := CartState([])

  /** The item ADD_TO_CART appends: each missing field gets its default through `??`. */
  function NewItem(p: AddPayload): CartItem
  {
    CartItem(
      id := p.dbId.GetOr("unknown-id"),
      dbId := p.dbId,
      name := p.name,
      price := p.price,
      salePrice := p.salePrice.GetOr(p.price),
      sku := p.sku.GetOr("N/A"),
      thumbnails := p.thumbnails.GetOr([]),
      quantityPurchase := p.quantityPurchase.GetOr(0),
      quantity := p.quantity.GetOr(1),
      selectedSize := p.selectedSize.GetOr(""),
      selectedColor := p.selectedColor.GetOr(""))
  }

  /** The filter predicate of REMOVE_FROM_CART. */
  function NotId(itemId: string): CartItem -> bool
  {
    (item: CartItem) => item.id != itemId
  }

  /** The map of UPDATE_CART applied to one line. */
  function UpdateLine(item: CartItem, itemId: string, quantity: int, size: string, color: string): CartItem
  {
    if item.id == itemId then item.(quantity := quantity, selectedSize := size, selectedColor := color)
    else item
  }

  function CartReducer(state: CartState, action: CartAction): CartState
  {
    match action
    case AddToCart(p) => state.(cartArray := state.cartArray + [NewItem(p)])
    case RemoveFromCart(itemId) => state.(cartArray := Lists.Filter(state.cartArray, NotId(itemId)))
    case UpdateCart(itemId, q, size, color) =>
      var items := state.cartArray;
      state.(cartArray := seq(|items|, i requires 0 <= i < |items| => UpdateLine(items[i], itemId, q, size, color)))
    case LoadCart(items) => state.(cartArray := items)
    case OtherAction(_) => state
  }

  // ---------------------------------------------------------------------------
  // ADD_TO_CART

  /** Adding appends exactly one line at the end, leaves earlier lines alone, and never merges. */
  lemma AddAppendsOne(state: CartState, p: AddPayload)
    ensures var r := CartReducer(state, AddToCart(p)).cartArray;
      |r| == |state.cartArray| + 1
      && r[..|state.cartArray|] == state.cartArray
      && r[|state.cartArray|] == NewItem(p)
  {
  }

  /** Defaults apply only to absent fields; present values, including 0 and "", are kept. */
  lemma NewItemDefaults(p: AddPayload)
    ensures var item := NewItem(p);
      (item.quantity == if p.quantity.Some? then p.quantity.value else 1)
      && (item.selectedSize == if p.selectedSize.Some? then p.selectedSize.value else "")
      && (item.selectedColor == if p.selectedColor.Some? then p.selectedColor.value else "")
      && (item.sku == if p.sku.Some? then p.sku.value else "N/A")
      && (item.thumbnails == if p.thumbnails.Some? then p.thumbnails.value else [])
      && (item.quantityPurchase == if p.quantityPurchase.Some? then p.quantityPurchase.value else 0)
      && (item.salePrice == if p.salePrice.Some? then p.salePrice.value else p.price)
      && (item.id == if p.dbId.Some? then p.dbId.value else "unknown-id")
      && item.dbId == p.dbId && item.name == p.name && item.price == p.price
  {
  }

  /** Adding the same product twice leaves two lines with the same id. */
  lemma AddTwiceDuplicates(state: CartState, p: AddPayload)
    ensures var r := CartReducer(CartReducer(state, AddToCart(p)), AddToCart(p)).cartArray;
      |r| == |state.cartArray| + 2 && r[|r| - 1] == r[|r| - 2] == NewItem(p)
  {
  }

  // ---------------------------------------------------------------------------
  // REMOVE_FROM_CART

  /**
   * After removal no line carries the id, every line with another id is still there,
   * and the survivors keep their relative order.
   */
  lemma {:induction false} RemoveDropsExactlyId(state: CartState, itemId: string)
    ensures var r := CartReducer(state, RemoveFromCart(itemId)).cartArray;
      (forall i :: 0 <= i < |r| ==> r[i].id != itemId && r[i] in state.cartArray)
      && (forall i :: 0 <= i < |state.cartArray| && state.cartArray[i].id != itemId ==> state.cartArray[i] in r)
      && Lists.IsSubsequence(r, state.cartArray)
  {
    Lists.FilterIsSubsequence(state.cartArray, NotId(itemId));
  }

  /** Removing twice is removing once. */
  lemma {:induction false} RemoveIdempotent(state: CartState, itemId: string)
    ensures var once := CartReducer(state, RemoveFromCart(itemId));
      CartReducer(once, RemoveFromCart(itemId)) == once
  {
    Lists.FilterIdempotent(state.cartArray, NotId(itemId));
  }

  /** Removing an id that no line carries changes nothing. */
  lemma {:induction false} RemoveAbsentId(state: CartState, itemId: string)
    requires forall i :: 0 <= i < |state.cartArray| ==> state.cartArray[i].id != itemId
    ensures CartReducer(state, RemoveFromCart(itemId)) == state
  {
    Lists.FilterKeepsAll(state.cartArray, NotId(itemId));
  }

  // ---------------------------------------------------------------------------
  // UPDATE_CART

  /**
   * Updating keeps length and order; every line with the id gets the new quantity, size and
   * color and keeps all its other fields; every other line is unchanged. No bound is placed
   * on the quantity.
   */
  lemma UpdateSetsMatchingLines(state: CartState, itemId: string, q: int, size: string, color: string)
    ensures var s := state.cartArray;
      var r := CartReducer(state, UpdateCart(itemId, q, size, color)).cartArray;
      |r| == |s|
      && (forall i :: 0 <= i < |s| && s[i].id == itemId ==>
            r[i].quantity == q && r[i].selectedSize == size && r[i].selectedColor == color
            && r[i] == s[i].(quantity := q, selectedSize := size, selectedColor := color))
      && (forall i :: 0 <= i < |s| && s[i].id != itemId ==> r[i] == s[i])
  {
  }

  /** Updating an id that no line carries changes nothing. */
  lemma UpdateAbsentId(state: CartState, itemId: string, q: int, size: string, color: string)
    requires forall i :: 0 <= i < |state.cartArray| ==> state.cartArray[i].id != itemId
    ensures CartReducer(state, UpdateCart(itemId, q, size, color)) == state
  {
    var r := CartReducer(state, UpdateCart(itemId, q, size, color)).cartArray;
    assert r == state.cartArray;
  }

  // ---------------------------------------------------------------------------
  // LOAD_CART and the default case

  lemma LoadReplaces(state: CartState, items: seq<CartItem>)
    ensures CartReducer(state, LoadCart(items)).cartArray == items
  {
  }

  lemma OtherActionIsIdentity(state: CartState, kind: string)
    ensures CartReducer(state, OtherAction(kind)) == state
  {
  }
}
