/**
 * The product card: the add-to-cart handler and the stock-dependent state of its button.
 * `addToCart` belongs to the cart context, which is not part of this model; the handler's
 * observable behaviour is the sequence of effects it issues.
 */
module ProductCard {
  import opened Common

  datatype VendorRef = VendorRef(name: string, id: string)

  /** The product shape the card renders. */
  datatype CatalogProduct = CatalogProduct(
    id: string, title: string, description: string, price: real,
    image: string, quantity: int, vendor: VendorRef)

  /** What the handler does, in order: a call into the cart, or a toast. */
  datatype Effect =
    | AddToCart(product: CatalogProduct)
    | Toast(title: string, description: string, destructive: bool)

  const AddedSuffix: string := " has been added to your cart"

  /** How many times a sequence of effects calls addToCart. */
  function AddToCartCalls(effects: seq<Effect>): (n: nat)
    ensures n <= |effects|
  {
    if effects == [] then 0
    else (if effects[0].AddToCart? then 1 else 0) + AddToCartCalls(effects[1..])
  }

  /** `handleAddToCart`: the login check, then the role check, then one call into the cart. */
  function HandleAddToCart(session: Option<User>, product: CatalogProduct): (effects: seq<Effect>)
    // the cart is called exactly once for role 'user', and never otherwise
    ensures AddToCartCalls(effects) == if HasRole(session, user) then 1 else 0
    // every outcome ends with a toast; only the success toast is not destructive
    ensures |effects| > 0 && effects[|effects| - 1].Toast?
    ensures effects[|effects| - 1].destructive <==> !HasRole(session, user)
    // no session is told to log in, whatever the product
    ensures session.None? ==> effects == [Toast("Please log in", "You need to be logged in to add items to cart", true)]
    // a vendor or admin session is told access is denied
    ensures session.Some? && session.value.role != user ==>
      effects == [Toast("Access denied", "Only customers can add items to cart", true)]
    // on success the cart call comes first and the toast names the product
    ensures HasRole(session, user) ==>
      effects == [AddToCart(product), Toast("Added to cart", product.title + AddedSuffix, false)]
  {
    if session.None? then
      [Toast("Please log in", "You need to be logged in to add items to cart", true)]
    else if session.value.role != user then
      [Toast("Access denied", "Only customers can add items to cart", true)]
    else
      var added := [Toast("Added to cart", product.title + AddedSuffix, false)];
      assert AddToCartCalls(added) == 0;
      [AddToCart(product)] + added
  }

  /** The handler does not look at stock: an out-of-stock product still reaches the cart. */
  lemma HandlerIgnoresStock(session: Option<User>, product: CatalogProduct, quantity: int)
    ensures HandleAddToCart(session, product.(quantity := quantity)) ==
      if HasRole(session, user) then
        [AddToCart(product.(quantity := quantity))] + HandleAddToCart(session, product)[1..]
      else HandleAddToCart(session, product)
  {
  }

  /** The button: `disabled={product.quantity === 0}` and its label. */
  datatype AddButton = AddButton(disabled: bool, caption: string)

  function ButtonFor(product: CatalogProduct): (b: AddButton)
    ensures b.disabled <==> product.quantity == 0
    ensures b.caption == "Out of Stock" <==> product.quantity == 0
    ensures b.caption == "Add to Cart" <==> product.quantity != 0
  {
    if product.quantity == 0 then AddButton(true, "Out of Stock") else AddButton(false, "Add to Cart")
  }
}
