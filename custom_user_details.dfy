/** The security principal built from a domain user. */
module CustomUserDetails {
  import opened Wrappers
  import opened Longs
  import opened Roles
  import opened Users

  /** `authorities` holds the authority strings in list order. */
  datatype UserDetails = UserDetails(id: Option<Long>, userId: string, password: string, authorities: seq<string>)

  const DEFAULT_ROLE: string := "ROLE_USER"

  /** `getRole`: the first authority, or ROLE_USER when there is none. */
  function GetRole(d: UserDetails): (r: string)
    ensures |d.authorities| > 0 ==> r == d.authorities[0]
    ensures d.authorities == [] ==> r == DEFAULT_ROLE
  {
    if |d.authorities| > 0 then d.authorities[0] else DEFAULT_ROLE
  }

  /** `from(user)`: id, login id and password copied, one authority named after the role. */
  function From(u: User): (d: UserDetails)
    ensures d.id == u.id && d.userId == u.userId && d.password == u.password
    ensures d.authorities == [Name(u.role)]
  {
    UserDetails(u.id, u.userId, u.password, [Name(u.role)])
  }

  /** `getUsername`: the login id, not the display name. */
  function GetUsername(d: UserDetails): (r: string)
    ensures r == d.userId
  {
    d.userId
  }

  /** `getPassword`: the stored (encoded) password. */
  function GetPassword(d: UserDetails): (r: string)
    ensures r == d.password
  {
    d.password
  }

  predicate IsAccountNonExpired(d: UserDetails) { true }
  predicate IsAccountNonLocked(d: UserDetails) { true }
  predicate IsCredentialsNonExpired(d: UserDetails) { true }
  predicate IsEnabled(d: UserDetails) { true }

  /** The principal of a user reports that user's role, and reading the role
      name back gives the role itself. */
  lemma RoleOfFrom(u: User)
    ensures GetRole(From(u)) == Name(u.role)
    ensures ValueOf(GetRole(From(u))) == Some(u.role)
  {
  }

  /** The username and password the authentication layer sees are the
      user's login id and stored password. */
  lemma CredentialsOfFrom(u: User)
    ensures GetUsername(From(u)) == u.userId
    ensures GetPassword(From(u)) == u.password
  {
  }

  /** No account is ever expired, locked, out of date or disabled. */
  lemma AccountAlwaysUsable(d: UserDetails)
    ensures IsAccountNonExpired(d) && IsAccountNonLocked(d)
    ensures IsCredentialsNonExpired(d) && IsEnabled(d)
  {
  }
}
