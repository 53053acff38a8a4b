/** The domain user: an immutable record built by two static factories. */
module Users {
  import opened Wrappers
  import opened Longs
  import opened Roles

  /** `id` is null (`None`) until the store assigns one. */
  datatype User = User(id: Option<Long>, userId: string, password: string, userName: string, role: Role)

  /** `User.create`: a user not yet stored, so without an id. */
  function Create(userId: string, encodedPassword: string, userName: string, role: Role): (u: User)
    ensures u.id.None?
    ensures u.userId == userId && u.password == encodedPassword
    ensures u.userName == userName && u.role == role
  {
    User(None, userId, encodedPassword, userName, role)
  }

  /** `User.reconstruct`: a user with every field, id included, given. */
  function Reconstruct(id: Option<Long>, userId: string, encodedPassword: string, userName: string, role: Role): (u: User)
    ensures u.id == id && u.userId == userId && u.password == encodedPassword
    ensures u.userName == userName && u.role == role
  {
    User(id, userId, encodedPassword, userName, role)
  }

  /** Rebuilding a user from its own fields with some id changes the id only;
      with no id it gives back the user `create` would have built. */
  lemma ReconstructChangesOnlyId(id: Option<Long>, u: User)
    ensures Reconstruct(id, u.userId, u.password, u.userName, u.role) == u.(id := id)
    ensures Reconstruct(None, u.userId, u.password, u.userName, u.role) == Create(u.userId, u.password, u.userName, u.role)
  {
  }
}
