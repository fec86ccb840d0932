/** `mapUserApiToDomain`: the user record the server sends, turned into the
    record the pages use. The numbers are carried over, never computed with. */
module UserMapper {

  /** The fields of the server's record that the mapper reads. */
  datatype UserDto = UserDto(
    userId: string,
    email: string,
    name: string,
    role: string,
    averageRating: real,
    ratingCount: int)

  datatype Stats = Stats(rating: real, count: int)

  datatype User = User(id: string, email: string, name: string, role: string, isAdmin: bool, stats: Stats)

  const AdminRole: string := "ADMIN"

  function MapUserApiToDomain(dto: UserDto): (u: User)
    ensures u.id == dto.userId && u.email == dto.email && u.name == dto.name && u.role == dto.role
    ensures u.isAdmin <==> dto.role == AdminRole
    ensures u.stats.rating == dto.averageRating && u.stats.count == dto.ratingCount
  {
    User(dto.userId, dto.email, dto.name, dto.role, dto.role == AdminRole, Stats(dto.averageRating, dto.ratingCount))
  }

  /** The server record a user came from, read back from it. */
  function DtoOf(u: User): UserDto {
    UserDto(u.id, u.email, u.name, u.role, u.stats.rating, u.stats.count)
  }

  /** A mapped user's admin flag agrees with its role. */
  predicate Consistent(u: User) {
    u.isAdmin <==> u.role == AdminRole
  }

  /** Mapping loses nothing: the server record is read back whole, so two
      different records never map to the same user. */
  lemma MappingLosesNothing(a: UserDto, b: UserDto)
    ensures DtoOf(MapUserApiToDomain(a)) == a
    ensures MapUserApiToDomain(a) == MapUserApiToDomain(b) ==> a == b
  {
  }

  /** The users the mapper can produce are exactly those whose admin flag
      agrees with their role. */
  lemma MappedUsersAreConsistent(u: User)
    ensures Consistent(u) <==> MapUserApiToDomain(DtoOf(u)) == u
    ensures Consistent(MapUserApiToDomain(DtoOf(u)))
  {
  }

  /** Only the exact role "ADMIN" makes an administrator: "ROLE_ADMIN" and
      "admin" do not. */
  lemma OnlyExactAdminRole(dto: UserDto)
    ensures dto.role == "ROLE_ADMIN" ==> !MapUserApiToDomain(dto).isAdmin
    ensures dto.role == "admin" ==> !MapUserApiToDomain(dto).isAdmin
    ensures dto.role == "ADMIN" ==> MapUserApiToDomain(dto).isAdmin
  {
  }
}
