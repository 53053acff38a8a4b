/** The user role enumeration and its conversion to and from its constant name
    (`Enum.name()` and `Enum.valueOf`). */
module Roles {
  import opened Wrappers

  datatype Role = ROLE_USER | ROLE_ADMIN

  /** `role.name()`: every name carries Spring Security's `ROLE_` prefix,
      followed by at least one character. */
  function Name(r: Role): (s: string)
    ensures |s| > 5 && s[..5] == "ROLE_"
  {
    match r
    case ROLE_USER => "ROLE_USER"
    case ROLE_ADMIN => "ROLE_ADMIN"
  }

  /** `Role.valueOf(s)`; an unknown name throws IllegalArgumentException (`None`). */
  function ValueOf(s: string): (r: Option<Role>)
    ensures r.Some? ==> Name(r.value) == s
    ensures forall x :: Name(x) == s ==> r == Some(x)
  {
    if s == "ROLE_USER" then Some(ROLE_USER)
    else if s == "ROLE_ADMIN" then Some(ROLE_ADMIN)
    else None
  }

  /** Distinct roles have distinct names, so the name identifies the role. */
  lemma NameInjective(a: Role, b: Role)
    ensures Name(a) == Name(b) <==> a == b
  {
    if a != b {
      assert Name(a)[5] != Name(b)[5];
    }
  }
}
