/**
 * The registration form: its initial value, the roles its select offers, and the two
 * guards the submit handler applies before anything else.
 */
module Register {
  import opened Common

  /** The form state; `role` holds the select's string value. */
  datatype RegisterForm = RegisterForm(email: string, password: string, role: string)

  /** The outcome of the guards: the first failing check, or acceptance. */
  datatype Verdict = InvalidEmail | PasswordTooShort | Accepted

  const MinPasswordLength: nat := 8

  /** The form as first rendered. */
  function InitialForm(): (f: RegisterForm)
    ensures f.email == "" && f.password == ""
    ensures ParseRole(f.role) == Some(user)
  {
    RegisterForm("", "", RoleName(user))
  }

  /** The values of the role select's items, in order. */
  function SelectableRoles(): (values: seq<string>)
    ensures forall v :: v in values ==> ParseRole(v).Some?
    ensures forall r: Role :: RoleName(r) in values
  {
    [RoleName(user), RoleName(vendor), RoleName(admin)]
  }

  /** The email input's `onChange`: `setFormData({ ...formData, email: value })`. */
  function WithEmail(f: RegisterForm, value: string): (g: RegisterForm)
    ensures g.email == value && g.password == f.password && g.role == f.role
  {
    f.(email := value)
  }

  /** The password input's `onChange`: `setFormData({ ...formData, password: value })`. */
  function WithPassword(f: RegisterForm, value: string): (g: RegisterForm)
    ensures g.password == value && g.email == f.email && g.role == f.role
  {
    f.(password := value)
  }

  /** Typing into the email or password inputs never changes the chosen role. */
  lemma EditsKeepRole(f: RegisterForm, email: string, password: string, r: Role)
    ensures WithPassword(WithEmail(SelectRole(f, r), email), password).role == SelectRole(f, r).role
    ensures Validate(WithPassword(WithEmail(SelectRole(f, r), email), password))
         == Validate(RegisterForm(email, password, RoleName(r)))
  {
  }

  /** Choosing an item of the select. */
  function SelectRole(f: RegisterForm, r: Role): (g: RegisterForm)
    ensures g.email == f.email && g.password == f.password && ParseRole(g.role) == Some(r)
  {
    ParseRoleName(r);
    f.(role := RoleName(r))
  }

  /**
   * JavaScript's `length` of a string: UTF-16 code units, so a character outside the
   * basic multilingual plane counts twice.
   */
  function Utf16Length(s: string): (n: nat)
    ensures |s| <= n <= 2 * |s|
  {
    if s == [] then 0
    else (if s[0] as int > 0xFFFF then 2 else 1) + Utf16Length(s[1..])
  }

  /** The guards of `handleSubmit`, in the order the handler applies them. */
  function Validate(f: RegisterForm): (v: Verdict)
    ensures v == InvalidEmail <==> '@' !in f.email
    ensures v == PasswordTooShort <==> '@' in f.email && Utf16Length(f.password) < MinPasswordLength
    ensures v == Accepted <==> '@' in f.email && Utf16Length(f.password) >= MinPasswordLength
  {
    if '@' !in f.email then InvalidEmail
    else if Utf16Length(f.password) < MinPasswordLength then PasswordTooShort
    else Accepted
  }

  /** A password of at least eight characters always passes the length guard. */
  lemma EightCharactersSuffice(f: RegisterForm)
    requires '@' in f.email && |f.password| >= MinPasswordLength
    ensures Validate(f) == Accepted
  {
  }

  /** A string of basic-plane characters is as long in code units as in characters. */
  lemma {:induction false} BasicPlaneLength(s: string)
    requires forall i :: 0 <= i < |s| ==> s[i] as int <= 0xFFFF
    ensures Utf16Length(s) == |s|
  {
    if s != [] {
      assert forall i :: 0 <= i < |s| - 1 ==> s[1..][i] == s[i + 1];
      BasicPlaneLength(s[1..]);
    }
  }

  /** A string of characters outside the basic plane is twice as long in code units. */
  lemma {:induction false} AstralLength(s: string)
    requires forall i :: 0 <= i < |s| ==> s[i] as int > 0xFFFF
    ensures Utf16Length(s) == 2 * |s|
  {
    if s != [] {
      assert forall i :: 0 <= i < |s| - 1 ==> s[1..][i] == s[i + 1];
      AstralLength(s[1..]);
    }
  }

  /** Four characters outside the basic plane already pass the length guard. */
  lemma FourAstralCharactersPass(f: RegisterForm)
    requires '@' in f.email && |f.password| >= 4
    requires forall i :: 0 <= i < |f.password| ==> f.password[i] as int > 0xFFFF
    ensures Validate(f) == Accepted
  {
    AstralLength(f.password);
  }

  /** Any role, admin included, can be chosen on the form and passes validation with it. */
  lemma AdminSelfSelectable(f: RegisterForm)
    requires Validate(f) == Accepted
    ensures RoleName(admin) in SelectableRoles() && Validate(SelectRole(f, admin)) == Accepted
  {
  }
}
