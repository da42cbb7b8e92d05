/**
 * The customer dashboard: a role gate, the signed-in email, then figures taken from the cart context
 * (`getTotalItems()` enters as a parameter; `getTotalPrice()` is only formatted and is
 * not modelled).
 */
module UserPage {
  import opened Common

  datatype UserView =
    | UserAccessDenied
    | UserHome(email: string, cartItems: int, quickLinks: seq<string>, checkoutButton: bool)

  const QuickLinks: seq<string> := ["/products", "/cart"]

  function Render(session: Option<User>, totalItems: int): (v: UserView)
    ensures v.UserAccessDenied? <==> !HasRole(session, user)
    ensures v.UserHome? ==> v.email == session.value.email
    ensures v.UserHome? ==> v.cartItems == totalItems
    ensures v.UserHome? ==> (v.checkoutButton <==> totalItems > 0)
    ensures v.UserHome? ==> v.quickLinks == ["/products", "/cart"]
  {
    if !HasRole(session, user) then UserAccessDenied
    else UserHome(session.value.email, totalItems, QuickLinks, totalItems > 0)
  }

  /** Two customers with the same cart total see the same page apart from their own email. */
  lemma DiffersOnlyInEmail(u1: User, u2: User, totalItems: int)
    requires u1.role == user && u2.role == user
    ensures Render(Some(u2), totalItems).UserHome?
      && Render(Some(u1), totalItems) == Render(Some(u2), totalItems).(email := u1.email)
  {
  }
}
