/**
 * The navigation bar: which links and controls it shows for the current session, and
 * the logout handler. The cart total `getTotalItems()` comes from the cart context and
 * enters as a parameter.
 */
module Navbar {
  import opened Common
  import Session

  /** `getDashboardLink`: a switch on `user?.role` with a default branch. */
  function DashboardLink(session: Option<User>): (path: string)
    ensures path == "/admin" <==> HasRole(session, admin)
    ensures path == "/vendor" <==> HasRole(session, vendor)
    ensures path == "/products" <==> !HasRole(session, admin) && !HasRole(session, vendor)
  {
    if HasRole(session, admin) then "/admin"
    else if HasRole(session, vendor) then "/vendor"
    else "/products"
  }

  /** The cart icon, with its badge when the cart holds something. */
  datatype CartIcon = CartIcon(badge: Option<int>)

  /** What the bar shows besides the logo and the Products link. */
  datatype NavView = NavView(
    dashboardLink: Option<string>,
    cart: Option<CartIcon>,
    logoutButton: bool,
    loginAndRegister: bool)

  function Render(session: Option<User>, totalItems: int): (v: NavView)
    ensures v.dashboardLink.Some? <==> session.Some?
    ensures v.dashboardLink.Some? ==> v.dashboardLink.value == DashboardLink(session)
    ensures v.cart.Some? <==> HasRole(session, user)
    ensures v.cart.Some? ==> (v.cart.value.badge.Some? <==> totalItems > 0)
    ensures v.cart.Some? && v.cart.value.badge.Some? ==> v.cart.value.badge.value == totalItems
    ensures v.loginAndRegister <==> session.None?
    ensures v.logoutButton <==> !v.loginAndRegister
  {
    var authenticated := session.Some?;
    NavView(
      if authenticated then Some(DashboardLink(session)) else None,
      if authenticated && session.value.role == user
      then Some(CartIcon(if totalItems > 0 then Some(totalItems) else None))
      else None,
      authenticated,
      !authenticated)
  }

  /** `handleLogout`: log out, then navigate home. */
  method HandleLogout(auth: Session.AuthProvider) returns (target: string)
    modifies auth
    ensures auth.State() == Session.LoggedOut(old(auth.State()))
    ensures target == "/"
  {
    auth.Logout();
    target := "/";
  }
}
