/**
 * The role checks are written separately in each view. These lemmas relate them: the
 * views agree on who is a customer and who is a vendor, and a missing session is never
 * granted anything that a role check guards.
 */
module RoleGates {
  import opened Common
  import ProductCard
  import Navbar
  import UserPage
  import VendorPage

  /** Exactly the sessions with the cart icon can add to the cart and open the customer dashboard. */
  lemma CustomerGatesAgree(session: Option<User>, totalItems: int, p: ProductCard.CatalogProduct)
    ensures Navbar.Render(session, totalItems).cart.Some?
        <==> ProductCard.AddToCartCalls(ProductCard.HandleAddToCart(session, p)) == 1
    ensures Navbar.Render(session, totalItems).cart.Some?
        <==> UserPage.Render(session, totalItems).UserHome?
  {
  }

  /** The navbar's dashboard link leads a vendor, and only a vendor, to the vendor page, which admits them. */
  lemma VendorLinkAdmits(session: Option<User>, totalItems: int, products: seq<VendorPage.OwnProduct>,
                         loading: bool, showAddForm: bool, form: VendorPage.ProductForm)
    ensures Navbar.Render(session, totalItems).dashboardLink == Some("/vendor")
        <==> VendorPage.Render(session, products, loading, showAddForm, form).VendorHome?
  {
  }

  /** Without a session every guarded view refuses and the cart is never called. */
  lemma AnonymousGetsNothing(totalItems: int, p: ProductCard.CatalogProduct,
                             products: seq<VendorPage.OwnProduct>, loading: bool,
                             showAddForm: bool, form: VendorPage.ProductForm)
    ensures ProductCard.AddToCartCalls(ProductCard.HandleAddToCart(None, p)) == 0
    ensures UserPage.Render(None, totalItems).UserAccessDenied?
    ensures VendorPage.Render(None, products, loading, showAddForm, form).VendorAccessDenied?
    ensures Navbar.Render(None, totalItems).dashboardLink.None? && Navbar.Render(None, totalItems).cart.None?
  {
  }

  /** An admin is refused by both role-gated dashboards and cannot add to the cart. */
  lemma AdminIsNeitherCustomerNorVendor(u: User, totalItems: int, p: ProductCard.CatalogProduct,
                                        products: seq<VendorPage.OwnProduct>, loading: bool,
                                        showAddForm: bool, form: VendorPage.ProductForm)
    requires u.role == admin
    ensures ProductCard.AddToCartCalls(ProductCard.HandleAddToCart(Some(u), p)) == 0
    ensures UserPage.Render(Some(u), totalItems).UserAccessDenied?
    ensures VendorPage.Render(Some(u), products, loading, showAddForm, form).VendorAccessDenied?
    ensures Navbar.Render(Some(u), totalItems).dashboardLink == Some("/admin")
  {
  }
}
