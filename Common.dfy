/**
 * Values shared by every view of the storefront client: the optional value used
 * wherever the code has `T | null`, the three account roles, and the `User`
 * record that the session store keeps.
 */
module Common {

  datatype Option<+T> = None | Some(value: T)

  /** The roles an account can have, named by the string literals the code compares against. */
  datatype Role = user | vendor | admin

  /** The signed-in account as the session store holds it (`interface User`). */
  datatype User = User(email: string, id: string, role: Role)

  /** The moderation status a product record carries. */
  datatype Status = pending | approved | rejected

  /** The string a role is written as in a form value or a stored user. */
  function RoleName(r: Role): (name: string)
    ensures name != ""
  {
    match r
    case user => "user"
    case vendor => "vendor"
    case admin => "admin"
  }

  /** The role a string names, if any; the inverse of RoleName. */
  function ParseRole(name: string): (r: Option<Role>)
    ensures r.Some? ==> RoleName(r.value) == name
  {
    if name == "user" then Some(user)
    else if name == "vendor" then Some(vendor)
    else if name == "admin" then Some(admin)
    else None
  }

  lemma ParseRoleName(r: Role)
    ensures ParseRole(RoleName(r)) == Some(r)
  {
  }

  /** `session?.role === r`: there is a session and its role is r. */
  predicate HasRole(session: Option<User>, r: Role)
  {
    session.Some? && session.value.role == r
  }
}
