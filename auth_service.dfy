/** `AuthService`: self-service registration of a company (one tenant and its
    first user, a LANDLORD) and email/password login, both answering with a
    pair of signed tokens. bcrypt and JWT signing are parameters. */
module AuthService {
  import opened Common
  import opened Store

  const UserAlreadyExists: Error := Conflict("USER_ALREADY_EXISTS")
  const InvalidCredentials: Error := Unauthorized("INVALID_CREDENTIALS")

  /** `expiresIn: '15m'` and `'7d'`, in seconds. */
  const AccessTokenLifetime: int := 15 * 60
  const RefreshTokenLifetime: int := 7 * 24 * 60 * 60

  datatype RegisterDto = RegisterDto(companyName: string, email: string, password: string)
  datatype LoginDto = LoginDto(email: string, password: string)

  /** `@IsNotEmpty` company name and `@MinLength(8)` password. */
  predicate ValidRegister(dto: RegisterDto) {
    dto.companyName != "" && |dto.password| >= 8
  }

  /** The claims both tokens are signed with. */
  datatype TokenPayload = TokenPayload(userId: Id, tenantId: Id, role: Role)

  datatype AuthUser = AuthUser(id: Id, role: Role, tenantId: Id)
  datatype AuthResult = AuthResult(accessToken: string, refreshToken: string, user: AuthUser)

  /** `generateTokens`: the same claims signed twice, for fifteen minutes and
      for seven days, and the user they describe. */
  function GenerateTokens(userId: Id, tenantId: Id, role: Role, sign: (TokenPayload, int) -> string): (r: AuthResult)
    ensures r.user.id == userId && r.user.tenantId == tenantId && r.user.role == role
    ensures var claims := TokenPayload(r.user.id, r.user.tenantId, r.user.role);
      r.accessToken == sign(claims, AccessTokenLifetime) && r.refreshToken == sign(claims, RefreshTokenLifetime)
  {
    var claims := TokenPayload(userId, tenantId, role);
    AuthResult(sign(claims, AccessTokenLifetime), sign(claims, RefreshTokenLifetime), AuthUser(userId, role, tenantId))
  }

  predicate EmailTaken(users: map<Id, User>, email: string) {
    exists id :: id in users && users[id].email == email
  }

  /** `user.findUnique({ where: { email } })`. */
  ghost function UserByEmail(users: map<Id, User>, email: string): (u: Option<User>)
    ensures u.Some? <==> EmailTaken(users, email)
    ensures u.Some? ==> u.value in users.Values && u.value.email == email
  {
    if EmailTaken(users, email) then
      var id :| id in users && users[id].email == email; Some(users[id])
    else None
  }

  /** What `login` answers for the stored users: one error for an unknown
      email and for a wrong password alike. */
  ghost function LoginOutcome(users: map<Id, User>, dto: LoginDto, compare: (string, string) -> bool,
                              sign: (TokenPayload, int) -> string): Result<AuthResult>
  {
    var u := UserByEmail(users, dto.email);
    if u.Some? && compare(dto.password, u.value.password) then
      Ok(GenerateTokens(u.value.id, u.value.tenantId, u.value.role, sign))
    else Err(InvalidCredentials)
  }

  /** With unique emails, the lookup by email finds the one user holding it. */
  lemma UserByEmailUnique(db: Tables, id: Id)
    requires Keyed(db) && EmailsUnique(db) && id in db.users
    ensures UserByEmail(db.users, db.users[id].email) == Some(db.users[id])
  {
    var u := UserByEmail(db.users, db.users[id].email);
    var k := u.value.id;
    assert k in db.users && db.users[k] == u.value;
  }

  class AuthService {
    const prisma: Store

    constructor(prisma: Store)
      ensures this.prisma == prisma
    {
      this.prisma := prisma;
    }

    /** `register`: refused when the email is taken; otherwise one tenant and
        its LANDLORD user are created together. `hashed` is what
        `bcrypt.hash(dto.password, 10)` returned. */
    method Register(dto: RegisterDto, hashed: string, sign: (TokenPayload, int) -> string,
                    tenantId: Id, userId: Id) returns (r: Result<AuthResult>)
      requires ValidRegister(dto)
      requires prisma.Valid() && tenantId !in prisma.tenants && userId !in prisma.users
      modifies prisma
      ensures EmailTaken(old(prisma.users), dto.email) ==>
        r == Err(UserAlreadyExists) && prisma.State() == old(prisma.State())
      ensures !EmailTaken(old(prisma.users), dto.email) ==>
        && prisma.State() == old(prisma.State()).(
             tenants := old(prisma.tenants)[tenantId := Tenant(tenantId, dto.companyName, dto.email)],
             users := old(prisma.users)[userId := User(userId, tenantId, dto.email, hashed, LANDLORD)])
        && r == Ok(GenerateTokens(userId, tenantId, LANDLORD, sign))
      ensures prisma.Valid()
    {
      if exists id :: id in prisma.users && prisma.users[id].email == dto.email {
        return Err(UserAlreadyExists);
      }
      prisma.tenants := prisma.tenants[tenantId := Tenant(tenantId, dto.companyName, dto.email)];
      prisma.users := prisma.users[userId := User(userId, tenantId, dto.email, hashed, LANDLORD)];
      r := Ok(GenerateTokens(userId, tenantId, LANDLORD, sign));
    }

    /** `login`: the stored user with that email, if the password verifies
        against its hash. */
    method Login(dto: LoginDto, compare: (string, string) -> bool, sign: (TokenPayload, int) -> string)
      returns (r: Result<AuthResult>)
      requires prisma.Valid()
      ensures r == LoginOutcome(prisma.users, dto, compare, sign)
      ensures r.Err? ==> r.error == InvalidCredentials
      ensures r.Ok? <==> exists id :: id in prisma.users && prisma.users[id].email == dto.email
                                   && compare(dto.password, prisma.users[id].password)
    {
      if !exists id :: id in prisma.users && prisma.users[id].email == dto.email {
        return Err(InvalidCredentials);
      }
      var id :| id in prisma.users && prisma.users[id].email == dto.email;
      UserByEmailUnique(prisma.State(), id);
      var user := prisma.users[id];
      if !compare(dto.password, user.password) {
        return Err(InvalidCredentials);
      }
      r := Ok(GenerateTokens(user.id, user.tenantId, user.role, sign));
    }
  }

  /** Whoever registers can log in straight away with the same email and
      password, as the LANDLORD of the new tenant, provided bcrypt's compare
      accepts the password against its own hash. */
  lemma RegisteredUserCanLogIn(db: Tables, dto: RegisterDto, hashed: string, tenantId: Id, userId: Id,
                               compare: (string, string) -> bool, sign: (TokenPayload, int) -> string)
    requires Consistent(db) && userId !in db.users && !EmailTaken(db.users, dto.email)
    requires compare(dto.password, hashed)
    ensures var users := db.users[userId := User(userId, tenantId, dto.email, hashed, LANDLORD)];
      LoginOutcome(users, LoginDto(dto.email, dto.password), compare, sign)
        == Ok(GenerateTokens(userId, tenantId, LANDLORD, sign))
  {
    var users := db.users[userId := User(userId, tenantId, dto.email, hashed, LANDLORD)];
    assert userId in users && users[userId].email == dto.email;
    var u := UserByEmail(users, dto.email);
    var k :| k in users && users[k] == u.value;
    assert k == userId;
  }
}
