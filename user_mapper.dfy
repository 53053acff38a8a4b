/** Conversion between the domain user and the persistence entity. */
module UserMapper {
  import opened Wrappers
  import opened Longs
  import opened Roles
  import opened Users

  /** The persisted row; the role column holds the enum constant's name. */
  datatype UserEntity = UserEntity(id: Option<Long>, userId: string, password: string, userName: string, role: string)

  /** `toEntity`: copies the user's fields except its id; the role is written
      as its name, which reads back as the same role. */
  function ToEntity(u: User): (e: UserEntity)
    ensures e.id.None?
    ensures e.userId == u.userId && e.userName == u.userName && e.password == u.password
    ensures ValueOf(e.role) == Some(u.role)
  {
    UserEntity(None, u.userId, u.password, u.userName, Name(u.role))
  }

  /** `toDomain`: fails exactly when the stored role is not a role's name
      (`Role.valueOf` throws); it never copies the entity's id. */
  function ToDomain(e: UserEntity): (r: Option<User>)
    ensures r.Some? <==> exists role :: Name(role) == e.role
    ensures r.Some? ==> r.value.id.None? && Name(r.value.role) == e.role
    ensures r.Some? ==> r.value.userId == e.userId && r.value.userName == e.userName && r.value.password == e.password
  {
    match ValueOf(e.role)
    case None => None
    case Some(role) => Some(User.User(None, e.userId, e.password, e.userName, role))
  }

  /** Writing a user out and reading it back loses only the id. */
  lemma ToDomainToEntity(u: User)
    ensures ToDomain(ToEntity(u)) == Some(u.(id := None))
  {
  }
}
