/** The rows of the two database tables the core reads and writes: User and Token. */
module Schema {
  import opened Wrappers

  datatype Role = UserRole | AdminRole

  /** The role as stored and as compared by the role guards. */
  function RoleName(r: Role): string {
    match r
    case UserRole => "user"
    case AdminRole => "admin"
  }

  /** The purpose of a token. */
  datatype TokenType = Access | Refresh | ResetPassword | VerifyEmail

  /** The purpose as the string stored in the token table and carried in the claims. */
  function TokenTypeName(t: TokenType): string {
    match t
    case Access => "access"
    case Refresh => "refresh"
    case ResetPassword => "resetPassword"
    case VerifyEmail => "verifyEmail"
  }

  /** Reads a stored purpose string back; anything but the four names is not a purpose. */
  function ParseTokenType(s: string): (r: Option<TokenType>)
    ensures r.Some? ==> TokenTypeName(r.value) == s
  {
    if s == "access" then Some(Access)
    else if s == "refresh" then Some(Refresh)
    else if s == "resetPassword" then Some(ResetPassword)
    else if s == "verifyEmail" then Some(VerifyEmail)
    else None
  }

  /** Distinct purposes are stored under distinct names, and each name reads back as its purpose. */
  lemma TokenTypeNameRoundTrip(t: TokenType)
    ensures ParseTokenType(TokenTypeName(t)) == Some(t)
  {
  }

  /** A row of the token table, which is keyed by the token string itself. */
  datatype TokenRecord = TokenRecord(userId: string, expires: int, tokenType: TokenType, blacklisted: bool)

  /** A row of the user table; `password` holds the hash. */
  datatype User = User(
    id: string,
    email: string,
    fullName: string,
    password: string,
    role: Role,
    isVerified: bool,
    deactivated: bool)

  /** A user as the services return it: every selected column but the password. */
  datatype UserView = UserView(
    id: string,
    email: string,
    fullName: string,
    role: Role,
    isVerified: bool,
    deactivated: bool)

  function View(u: User): (v: UserView)
    ensures v.id == u.id && v.email == u.email && v.fullName == u.fullName
    ensures v.role == u.role && v.isVerified == u.isVerified && v.deactivated == u.deactivated
  {
    UserView(u.id, u.email, u.fullName, u.role, u.isVerified, u.deactivated)
  }

  /** The constraints of the user table: rows are keyed by their id and emails are unique. */
  ghost predicate UsersWellFormed(users: map<string, User>) {
    && (forall id :: id in users ==> users[id].id == id)
    && (forall a, b :: a in users && b in users && users[a].email == users[b].email ==> a == b)
  }

  /** Some user holds this email. */
  predicate EmailTaken(users: map<string, User>, email: string) {
    exists id :: id in users && users[id].email == email
  }
}
