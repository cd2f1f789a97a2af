/**
 * `AuthService`: registration, login, token refresh and profile update over
 * the user table. SHA-256, JWT signing, the clock and the fresh token id
 * are inputs (`Env`), and so is the e-mail comparison of the user
 * repository, whose code is not part of this model: two e-mail addresses
 * match when `emailKey` maps them to the same value.
 */
module AuthService {
  import opened Wrappers
  import opened Text
  import opened Seqs
  import opened Entities
  import opened Exceptions
  import opened DbContext

  datatype JwtSettings = JwtSettings(secret: string, issuer: string, audience: string, expirationInMinutes: int)

  datatype Claim = Claim(kind: string, value: string)

  // Claim types: the registered JWT names and the .NET `ClaimTypes` URIs.
  const SubClaim := "sub"
  const EmailClaim := "email"
  const NameClaim := "http://schemas.xmlsoap.org/ws/2005/05/identity/claims/name"
  const RoleClaim := "http://schemas.microsoft.com/ws/2008/06/identity/claims/role"
  const NameIdentifierClaim := "http://schemas.xmlsoap.org/ws/2005/05/identity/claims/nameidentifier"
  const UserIdClaim := "userId"
  const JtiClaim := "jti"

  /** The library calls: SHA-256 of a string, Base64-encoded, and HMAC-SHA256 signing of a token. */
  datatype Crypto = Crypto(sha256Base64: string -> string, sign: (JwtSettings, seq<Claim>, int) -> string)

  /** What the service takes from outside: crypto, settings, the repository's e-mail match, the clock, a new GUID. */
  datatype Env = Env(crypto: Crypto, settings: JwtSettings, emailKey: string -> string, now: int, jti: string)

  datatype UserInfo = UserInfo(
    id: int,
    email: string,
    firstName: string,
    lastName: string,
    fullName: string,
    role: string,
    profilePicture: Option<string>,
    companyId: Option<int>)

  datatype AuthResponse = AuthResponse(
    success: bool,
    token: Option<string>,
    expiresAt: Option<int>,
    user: Option<UserInfo>,
    error: Option<string>)

  datatype RegisterDto = RegisterDto(
    email: string,
    password: string,
    firstName: string,
    lastName: string,
    phone: Option<string>,
    companyId: Option<int>)

  datatype LoginDto = LoginDto(email: string, password: string)

  datatype UpdateProfileDto = UpdateProfileDto(firstName: string, lastName: string, phone: Option<string>)

  const EmailTaken := "An account with this email already exists"
  const InvalidCredentials := "Invalid email or password"
  const Deactivated := "Your account has been deactivated"
  const NotFoundOrInactive := "User not found or inactive"

  // ------------------------------------------------------------ passwords

  const Salt := "CareerConnectSalt2024"

  /** `HashPassword`: the Base64 SHA-256 digest of the password followed by the fixed salt. */
  function HashPassword(c: Crypto, password: string): string {
    c.sha256Base64(password + Salt)
  }

  predicate VerifyPassword(c: Crypto, password: string, passwordHash: string) {
    HashPassword(c, password) == passwordHash
  }

  /** The hash is a function of the password, so a stored hash always accepts its own password. */
  lemma VerifyHashed(c: Crypto, password: string)
    ensures VerifyPassword(c, password, HashPassword(c, password))
  {
  }

  // --------------------------------------------------------------- tokens

  /** The claims of `GenerateJwtToken`, in their order. */
  function Claims(u: User, jti: string): seq<Claim> {
    [Claim(SubClaim, IntToString(u.id)), Claim(EmailClaim, u.email), Claim(NameClaim, FullName(u)),
     Claim(RoleClaim, u.role), Claim(UserIdClaim, IntToString(u.id)), Claim(JtiClaim, jti)]
  }

  function OfKind(kind: string): Claim -> bool { (c: Claim) => c.kind == kind }

  /** Instants are seconds: the token lives `ExpirationInMinutes` minutes. */
  function ExpiresAt(env: Env): int {
    env.now + env.settings.expirationInMinutes * 60
  }

  function Token(env: Env, u: User): string {
    env.crypto.sign(env.settings, Claims(u, env.jti), ExpiresAt(env))
  }

  /**
   * The first `userId` claim of a token holds the user's id as decimal
   * text, which `int.TryParse` reads back as the same id; the `sub` claim
   * carries the same text, and the e-mail and role claims are the user's.
   */
  lemma ClaimsCarryId(u: User, jti: string)
    requires Int32Min <= u.id <= Int32Max
    ensures var cs := Claims(u, jti);
      && FirstWhere(cs, OfKind(UserIdClaim)) == Some(Claim(UserIdClaim, IntToString(u.id)))
      && FirstWhere(cs, OfKind(SubClaim)) == Some(Claim(SubClaim, IntToString(u.id)))
      && TryParseInt(FirstWhere(cs, OfKind(UserIdClaim)).value.value) == Some(u.id)
      && Claim(EmailClaim, u.email) in cs && Claim(RoleClaim, u.role) in cs
  {
    var cs := Claims(u, jti);
    assert cs[1..][1..][1..][1..][0] == Claim(UserIdClaim, IntToString(u.id));
    ParseFormatRoundTrip(u.id);
  }

  function ToUserInfo(u: User): UserInfo {
    UserInfo(u.id, u.email, u.firstName, u.lastName, FullName(u), u.role, u.profilePicture, u.companyId)
  }

  function Failure(message: string): AuthResponse {
    AuthResponse(false, None, None, None, Some(message))
  }

  function Success(env: Env, u: User): AuthResponse {
    AuthResponse(true, Some(Token(env, u)), Some(ExpiresAt(env)), Some(ToUserInfo(u)), None)
  }

  /** What every answer of the service promises: a success carries a token, an expiry and the user, a failure only an error. */
  predicate WellFormed(env: Env, r: AuthResponse) {
    if r.success then
      && r.token.Some? && r.expiresAt == Some(ExpiresAt(env)) && r.user.Some? && r.error.None?
    else
      r.token.None? && r.expiresAt.None? && r.user.None? && r.error.Some?
  }

  // -------------------------------------------------------- the user table

  function ByEmail(env: Env, email: string): User -> bool {
    (u: User) => env.emailKey(u.email) == env.emailKey(email)
  }

  /** `Users.EmailExistsAsync`. */
  predicate EmailExists(env: Env, s: Store, email: string) {
    Any(s.users, ByEmail(env, email))
  }

  /** `Users.GetByEmailAsync`. */
  function GetByEmail(env: Env, s: Store, email: string): Option<User> {
    FirstWhere(s.users, ByEmail(env, email))
  }

  function ReplaceUser(u: User): User -> User {
    (x: User) => if x.id == u.id then u else x
  }

  /** The store after `Users.UpdateAsync(u)`. */
  function WithUser(s: Store, u: User): Store {
    s.(users := Map(s.users, ReplaceUser(u)))
  }

  lemma WithUserRows(s: Store, old_: User, u: User)
    requires old_ in s.users && u.id == old_.id
    ensures var r := WithUser(s, u).users;
      && u in r
      && (forall x | x in r :: x == u || (x in s.users && x.id != u.id))
      && (forall x | x in s.users && x.id != u.id :: x in r)
      && UserIds(WithUser(s, u)) == UserIds(s)
  {
    var r := WithUser(s, u).users;
    var k :| 0 <= k < |s.users| && s.users[k] == old_;
    assert r[k] == u;
    forall x | x in s.users && x.id != u.id ensures x in r {
      var m :| 0 <= m < |s.users| && s.users[m] == x;
      assert r[m] == x;
    }
    forall x | x in UserIds(s) ensures x in UserIds(WithUser(s, u)) {
      var m :| 0 <= m < |s.users| && s.users[m].id == x;
      assert r[m].id == x;
    }
  }

  /** The rewritten row keeps its key and e-mail, so both stay unique. */
  lemma WithUserUnique(s: Store, old_: User, u: User)
    requires UniqueBy(s.users, UserKey) && UniqueBy(s.users, UserEmail) && old_ in s.users
    requires u.id == old_.id && u.email == old_.email
    ensures UniqueBy(WithUser(s, u).users, UserKey) && UniqueBy(WithUser(s, u).users, UserEmail)
  {
    forall x | x in s.users ensures UserKey(ReplaceUser(u)(x)) == UserKey(x) && UserEmail(ReplaceUser(u)(x)) == UserEmail(x) {
      if x.id == u.id {
        var k :| 0 <= k < |s.users| && s.users[k] == old_;
        var m :| 0 <= m < |s.users| && s.users[m] == x;
        assert UserKey(s.users[k]) == UserKey(s.users[m]);
      }
    }
    MapUnique(s.users, ReplaceUser(u), UserKey);
    MapUnique(s.users, ReplaceUser(u), UserEmail);
  }

  lemma WithUserForeignKeys(s: Store, old_: User, u: User)
    requires ForeignKeysHold(s) && old_ in s.users
    requires u.id == old_.id && u.companyId == old_.companyId
    ensures ForeignKeysHold(WithUser(s, u))
  {
    WithUserRows(s, old_, u);
  }

  lemma WithUserLengths(s: Store, old_: User, u: User)
    requires LengthsFit(s) && old_ in s.users && u.id == old_.id
    ensures LengthsFit(WithUser(s, u)) <==> UserFits(u)
  {
    WithUserRows(s, old_, u);
  }

  /**
   * Rewriting a stored user under its own id and e-mail, with the same
   * company, keeps a consistent store consistent exactly when the new
   * row fits its columns.
   */
  lemma WithUserValid(s: Store, old_: User, u: User)
    requires Valid(s) && old_ in s.users
    requires u.id == old_.id && u.email == old_.email && u.companyId == old_.companyId
    ensures Valid(WithUser(s, u)) <==> UserFits(u)
  {
    WithUserUnique(s, old_, u);
    WithUserForeignKeys(s, old_, u);
    WithUserLengths(s, old_, u);
  }

  // -------------------------------------------------------------- register

  function RoleFor(companyId: Option<int>): string {
    if companyId.Some? then "Employer" else "JobSeeker"
  }

  function NewUser(env: Env, dto: RegisterDto, id: int): User {
    User(id, Lower(dto.email), HashPassword(env.crypto, dto.password), dto.firstName, dto.lastName,
         dto.phone, None, RoleFor(dto.companyId), true, None, dto.companyId, None)
  }

  /** `RegisterAsync`: the duplicate check is a failure answer; a rejected save is an exception. */
  function Register(env: Env, s: Store, dto: RegisterDto): Outcome<AuthResponse> {
    if EmailExists(env, s, dto.email) then Outcome(Ok(Failure(EmailTaken)), s)
    else
      var u := NewUser(env, dto, NextId(s.users, UserKey));
      match Commit(s.(users := s.users + [u]))
      case Ok(p) => Outcome(Ok(Success(env, u)), p)
      case Err(e) => Outcome(Err(e), s)
  }

  /** A known e-mail is refused with a message, no token, and nothing stored. */
  lemma RegisterDuplicate(env: Env, s: Store, dto: RegisterDto)
    requires EmailExists(env, s, dto.email)
    ensures var o := Register(env, s, dto);
      && o.result == Ok(Failure(EmailTaken)) && o.store == s
      && o.result.value.token.None? && WellFormed(env, o.result.value)
  {
  }

  /**
   * On a consistent store `RegisterAsync` succeeds exactly when the
   * repository knows no matching e-mail, no stored row already has the
   * lower-cased e-mail the unique index sees, the row fits and the company
   * exists. The stored user is active, has the lower-cased e-mail, and is an
   * employer exactly when a company was given; every other result keeps the store.
   */
  lemma RegisterOutcome(env: Env, s: Store, dto: RegisterDto)
    requires Valid(s)
    ensures var id := NextId(s.users, UserKey);
      var u := NewUser(env, dto, id);
      var o := Register(env, s, dto);
      && (o.result.Ok? && o.result.value.success <==>
            && !EmailExists(env, s, dto.email)
            && (forall x | x in s.users :: x.email != Lower(dto.email))
            && UserFits(u)
            && (dto.companyId.Some? ==> dto.companyId.value in CompanyIds(s)))
      && (o.result.Ok? ==> WellFormed(env, o.result.value))
      && (o.result.Ok? && o.result.value.success ==>
            && id !in UserIds(s) && Valid(o.store)
            && FindUser(o.store, id) == Some(u)
            && o.store.users == s.users + [u]
            && u.email == Lower(dto.email) && u.isActive
            && (u.role == "Employer" <==> dto.companyId.Some?)
            && o.result.value.user == Some(ToUserInfo(u)))
      && (!(o.result.Ok? && o.result.value.success) ==> o.store == s)
  {
    var id := NextId(s.users, UserKey);
    var u := NewUser(env, dto, id);
    var p := s.(users := s.users + [u]);
    if !EmailExists(env, s, dto.email) {
      AddUserValid(s, u);
      if Valid(p) {
        FindByUnique(p.users, UserKey, u);
      }
    }
  }

  /** A new row with a fresh id saves exactly when its e-mail is new, it fits, and its company exists. */
  lemma AddUserValid(s: Store, u: User)
    requires Valid(s) && forall x | x in s.users :: x.id != u.id
    ensures var p := s.(users := s.users + [u]);
      Valid(p) <==>
        && (forall x | x in s.users :: x.email != u.email)
        && UserFits(u)
        && (u.companyId.Some? ==> u.companyId.value in CompanyIds(s))
  {
    var p := s.(users := s.users + [u]);
    AppendUnique(s.users, u, UserKey);
    assert UserIds(p) == UserIds(s) + {u.id};
    if forall x | x in s.users :: x.email != u.email {
      AppendUnique(s.users, u, UserEmail);
    } else {
      var x :| x in s.users && x.email == u.email;
      NotUniqueBy(p.users, UserEmail, x, u);
    }
  }

  // ----------------------------------------------------------------- login

  /** `LoginAsync`: a successful login records the time of the login. */
  function Login(env: Env, s: Store, dto: LoginDto): Outcome<AuthResponse> {
    match GetByEmail(env, s, dto.email)
    case None => Outcome(Ok(Failure(InvalidCredentials)), s)
    case Some(u) =>
      if !VerifyPassword(env.crypto, dto.password, u.passwordHash) then Outcome(Ok(Failure(InvalidCredentials)), s)
      else if !u.isActive then Outcome(Ok(Failure(Deactivated)), s)
      else
        var v := u.(lastLoginAt := Some(env.now));
        match Commit(WithUser(s, v))
        case Ok(p) => Outcome(Ok(Success(env, v)), p)
        case Err(e) => Outcome(Err(e), s)
  }

  /**
   * An unknown e-mail and a wrong password give the same answer, and so
   * does a deactivated account with a wrong password: the password is
   * checked first, and only a correct one reveals the deactivation.
   */
  lemma LoginFailures(env: Env, s: Store, dto: LoginDto)
    ensures var o := Login(env, s, dto);
      var found := GetByEmail(env, s, dto.email);
      && (found.None? || !VerifyPassword(env.crypto, dto.password, found.value.passwordHash) <==>
            o.result == Ok(Failure(InvalidCredentials)))
      && (found.Some? && VerifyPassword(env.crypto, dto.password, found.value.passwordHash) && !found.value.isActive <==>
            o.result == Ok(Failure(Deactivated)))
      && (o.result.Ok? && !o.result.value.success ==> o.store == s)
  {
  }

  /**
   * On a consistent store a login fails only with an answer, never with an
   * exception; it succeeds exactly for a matching active user with the
   * right password, and then changes that user's last-login time and
   * nothing else.
   */
  lemma LoginOutcome(env: Env, s: Store, dto: LoginDto)
    requires Valid(s)
    ensures var o := Login(env, s, dto);
      var found := GetByEmail(env, s, dto.email);
      && o.result.Ok? && WellFormed(env, o.result.value)
      && (o.result.value.success <==>
            found.Some? && VerifyPassword(env.crypto, dto.password, found.value.passwordHash) && found.value.isActive)
      && (o.result.value.success ==>
            var v := found.value.(lastLoginAt := Some(env.now));
            && o.store == WithUser(s, v)
            && FindUser(o.store, v.id) == Some(v)
            && (forall x | x in s.users && x.id != v.id :: x in o.store.users)
            && o.result.value.token == Some(Token(env, v))
            && o.result.value.user == Some(ToUserInfo(v)))
      && (!o.result.value.success ==> o.store == s)
  {
    var found := GetByEmail(env, s, dto.email);
    if found.Some? {
      var u := found.value;
      var v := u.(lastLoginAt := Some(env.now));
      assert UserFits(u);
      WithUserValid(s, u, v);
      WithUserRows(s, u, v);
      if Valid(WithUser(s, v)) {
        FindByUnique(WithUser(s, v).users, UserKey, v);
      }
    }
  }

  /**
   * Registering and then logging in with the same e-mail and password
   * succeeds and logs in the new user, provided the repository's e-mail
   * match treats the lower-cased address as the address given (as a
   * case-insensitive match does).
   */
  lemma RegisterThenLogin(env: Env, later: Env, s: Store, dto: RegisterDto)
    requires Valid(s)
    requires Register(env, s, dto).result.Ok? && Register(env, s, dto).result.value.success
    requires later.crypto == env.crypto && later.emailKey == env.emailKey
    requires env.emailKey(Lower(dto.email)) == env.emailKey(dto.email)
    ensures var o := Login(later, Register(env, s, dto).store, LoginDto(dto.email, dto.password));
      && o.result.Ok? && o.result.value.success
      && o.result.value.user.value.id == NextId(s.users, UserKey)
  {
    RegisterOutcome(env, s, dto);
    var u := NewUser(env, dto, NextId(s.users, UserKey));
    var t := Register(env, s, dto).store;
    FirstWhereAppend(s.users, [u], ByEmail(later, dto.email));
    assert GetByEmail(later, t, dto.email) == Some(u);
    LoginOutcome(later, t, LoginDto(dto.email, dto.password));
  }

  // ------------------------------------------------ refresh and user lookup

  /** `GetUserByIdAsync`. */
  function GetUserById(s: Store, userId: int): Option<UserInfo> {
    match FindUser(s, userId)
    case None => None
    case Some(u) => Some(ToUserInfo(u))
  }

  /** `RefreshTokenAsync`: a new token for a known active user; it changes nothing. */
  function Refresh(env: Env, s: Store, userId: int): AuthResponse {
    match FindUser(s, userId)
    case None => Failure(NotFoundOrInactive)
    case Some(u) => if !u.isActive then Failure(NotFoundOrInactive) else Success(env, u)
  }

  /** A refresh succeeds exactly for a stored active user, and then describes that user. */
  lemma RefreshProps(env: Env, s: Store, userId: int)
    requires UniqueBy(s.users, UserKey)
    ensures var r := Refresh(env, s, userId);
      && WellFormed(env, r)
      && (!r.success <==> r == Failure(NotFoundOrInactive))
      && (r.success <==> exists u | u in s.users :: u.id == userId && u.isActive)
      && (r.success ==> r.user == GetUserById(s, userId))
  {
    if exists u | u in s.users :: u.id == userId && u.isActive {
      var u :| u in s.users && u.id == userId && u.isActive;
      FindByUnique(s.users, UserKey, u);
    }
  }

  // --------------------------------------------------------------- profile

  function Profiled(u: User, dto: UpdateProfileDto, now: int): User {
    u.(firstName := dto.firstName, lastName := dto.lastName, phone := dto.phone, updatedAt := Some(now))
  }

  /** `UpdateProfileAsync`: `None` is the null answer for a missing or inactive user. */
  function UpdateProfile(env: Env, s: Store, userId: int, dto: UpdateProfileDto): Outcome<Option<UserInfo>> {
    match FindUser(s, userId)
    case None => Outcome(Ok(None), s)
    case Some(u) =>
      if !u.isActive then Outcome(Ok(None), s)
      else
        var v := Profiled(u, dto, env.now);
        match Commit(WithUser(s, v))
        case Ok(p) => Outcome(Ok(Some(ToUserInfo(v))), p)
        case Err(e) => Outcome(Err(e), s)
  }

  /** The profile update answers null in exactly the cases the refresh fails in. */
  lemma UpdateProfileNull(env: Env, s: Store, userId: int, dto: UpdateProfileDto)
    ensures var o := UpdateProfile(env, s, userId, dto);
      && (o.result == Ok(None) <==> !Refresh(env, s, userId).success)
      && (o.result == Ok(None) ==> o.store == s)
  {
  }

  /**
   * On a consistent store the profile of an active user is saved exactly
   * when the new names fit their columns; only the names, the phone and the
   * update time change, and the answer is what `GetUserByIdAsync` then shows.
   */
  lemma UpdateProfileOutcome(env: Env, s: Store, userId: int, dto: UpdateProfileDto)
    requires Valid(s) && Refresh(env, s, userId).success
    ensures var o := UpdateProfile(env, s, userId, dto);
      var u := FindUser(s, userId).value;
      && (o.result.Ok? <==> |dto.firstName| <= 100 && |dto.lastName| <= 100)
      && (o.result.Ok? ==>
            && o.result.value.Some?
            && o.result == Ok(GetUserById(o.store, userId))
            && var v := FindUser(o.store, userId).value;
            && v.firstName == dto.firstName && v.lastName == dto.lastName && v.phone == dto.phone
            && v.updatedAt == Some(env.now)
            && v.email == u.email && v.role == u.role && v.companyId == u.companyId
            && v.isActive == u.isActive && v.passwordHash == u.passwordHash)
      && (o.result.Err? ==> o.store == s)
  {
    var u := FindUser(s, userId).value;
    var v := Profiled(u, dto, env.now);
    assert UserFits(u);
    WithUserValid(s, u, v);
    if Valid(WithUser(s, v)) {
      WithUserRows(s, u, v);
      FindByUnique(WithUser(s, v).users, UserKey, v);
    }
  }

  // ------------------------------------------------ the service's methods

  /** `RegisterAsync` against the unit of work. */
  method RegisterAsync(uow: UnitOfWork, env: Env, dto: RegisterDto) returns (r: Result<AuthResponse, Exception>)
    modifies uow
    ensures r == Register(env, old(uow.store), dto).result
    ensures uow.store == Register(env, old(uow.store), dto).store
  {
    var s := uow.store;
    if EmailExists(env, s, dto.email) {
      return Ok(Failure(EmailTaken));
    }
    var user := NewUser(env, dto, NextId(s.users, UserKey));
    var saved := uow.SaveChanges(s.(users := s.users + [user]));
    if saved.Err? {
      return Err(saved.error);
    }
    r := Ok(Success(env, user));
  }

  /** `LoginAsync` against the unit of work: `LastLoginAt` is set on the loaded user. */
  method LoginAsync(uow: UnitOfWork, env: Env, dto: LoginDto) returns (r: Result<AuthResponse, Exception>)
    modifies uow
    ensures r == Login(env, old(uow.store), dto).result
    ensures uow.store == Login(env, old(uow.store), dto).store
  {
    var s := uow.store;
    var found := GetByEmail(env, s, dto.email);
    if found.None? || !VerifyPassword(env.crypto, dto.password, found.value.passwordHash) {
      return Ok(Failure(InvalidCredentials));
    }
    var user := found.value;
    if !user.isActive {
      return Ok(Failure(Deactivated));
    }
    user := user.(lastLoginAt := Some(env.now));
    var saved := uow.SaveChanges(WithUser(s, user));
    if saved.Err? {
      return Err(saved.error);
    }
    r := Ok(Success(env, user));
  }

  /** `UpdateProfileAsync` against the unit of work: three fields and the update time are assigned. */
  method UpdateProfileAsync(uow: UnitOfWork, env: Env, userId: int, dto: UpdateProfileDto)
    returns (r: Result<Option<UserInfo>, Exception>)
    modifies uow
    ensures r == UpdateProfile(env, old(uow.store), userId, dto).result
    ensures uow.store == UpdateProfile(env, old(uow.store), userId, dto).store
  {
    var s := uow.store;
    var found := FindUser(s, userId);
    if found.None? || !found.value.isActive {
      return Ok(None);
    }
    var user := found.value;
    user := user.(firstName := dto.firstName, lastName := dto.lastName, phone := dto.phone);
    user := user.(updatedAt := Some(env.now));
    var saved := uow.SaveChanges(WithUser(s, user));
    if saved.Err? {
      return Err(saved.error);
    }
    r := Ok(Some(ToUserInfo(user)));
  }
}
