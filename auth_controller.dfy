/**
 * `AuthController`: the HTTP face of the authentication service. Model
 * validation is an input (`modelValid`); the bearer token's claims are the
 * claims of the authenticated principal. An exception of the service is
 * not caught here: it travels on to the exception middleware.
 */
module AuthController {
  import opened Wrappers
  import opened Text
  import opened Seqs
  import opened Entities
  import opened Exceptions
  import opened DbContext
  import opened AuthService

  /** What an action writes: the model-state errors, `{ error }`, an auth response or a user. */
  datatype Body = ModelErrors | ErrorBody(error: Option<string>) | AuthBody(response: AuthResponse) | UserBody(user: UserInfo)

  datatype ActionResult = ActionResult(status: int, body: Body)

  const InvalidToken := "Invalid token"
  const UserNotFound := "User not found"

  function BadRequest(b: Body): ActionResult { ActionResult(400, b) }
  function Unauthorized(b: Body): ActionResult { ActionResult(401, b) }
  function NotFoundResult(b: Body): ActionResult { ActionResult(404, b) }
  function OkResult(b: Body): ActionResult { ActionResult(200, b) }

  /** The value of the first claim of a kind, as `User.FindFirst(kind)?.Value`. */
  function FindFirst(claims: seq<Claim>, kind: string): Option<string> {
    match FirstWhere(claims, OfKind(kind))
    case None => None
    case Some(c) => Some(c.value)
  }

  /** The `userId` claim, or the name identifier only when there is no `userId` claim at all. */
  function UserIdText(claims: seq<Claim>): Option<string> {
    match FindFirst(claims, UserIdClaim)
    case Some(v) => Some(v)
    case None => FindFirst(claims, NameIdentifierClaim)
  }

  /** The user id of the token, or `None` for "Invalid token". */
  function UserIdOf(claims: seq<Claim>): Option<int> {
    var text := UserIdText(claims);
    if IsNullOrEmpty(text) then None else TryParseInt(text.value)
  }

  /**
   * The name identifier is consulted only when no `userId` claim exists:
   * a present but empty or malformed `userId` claim makes the token
   * invalid whatever the name identifier says.
   */
  lemma UserIdFallback(claims: seq<Claim>)
    ensures var first := FirstWhere(claims, OfKind(UserIdClaim));
      && (first.Some? ==> UserIdText(claims) == Some(first.value.value))
      && (first.Some? && first.value.value == "" ==> UserIdOf(claims).None?)
      && (first.None? ==> UserIdText(claims) == FindFirst(claims, NameIdentifierClaim))
      && (UserIdText(claims).None? ==> UserIdOf(claims).None?)
  {
  }

  /** A token the service issued names its user: the controller reads back the user's id. */
  lemma IssuedTokenNamesUser(u: User, jti: string)
    requires Int32Min <= u.id <= Int32Max
    ensures UserIdOf(Claims(u, jti)) == Some(u.id)
  {
    ClaimsCarryId(u, jti);
  }

  // --------------------------------------------------------------- actions

  /** `POST register`. */
  function Register(env: Env, s: Store, modelValid: bool, dto: RegisterDto): Outcome<ActionResult> {
    if !modelValid then Outcome(Ok(BadRequest(ModelErrors)), s)
    else
      var o := AuthService.Register(env, s, dto);
      match o.result
      case Err(e) => Outcome(Err(e), o.store)
      case Ok(r) => Outcome(Ok(if !r.success then BadRequest(ErrorBody(r.error)) else OkResult(AuthBody(r))), o.store)
  }

  /** `POST login`: a failed login is 401, not 400. */
  function Login(env: Env, s: Store, modelValid: bool, dto: LoginDto): Outcome<ActionResult> {
    if !modelValid then Outcome(Ok(BadRequest(ModelErrors)), s)
    else
      var o := AuthService.Login(env, s, dto);
      match o.result
      case Err(e) => Outcome(Err(e), o.store)
      case Ok(r) => Outcome(Ok(if !r.success then Unauthorized(ErrorBody(r.error)) else OkResult(AuthBody(r))), o.store)
  }

  /** `GET me`. */
  function Me(s: Store, claims: seq<Claim>): ActionResult {
    match UserIdOf(claims)
    case None => Unauthorized(ErrorBody(Some(InvalidToken)))
    case Some(id) =>
      match GetUserById(s, id)
      case None => NotFoundResult(ErrorBody(Some(UserNotFound)))
      case Some(u) => OkResult(UserBody(u))
  }

  /** `POST refresh`. */
  function Refresh(env: Env, s: Store, claims: seq<Claim>): ActionResult {
    match UserIdOf(claims)
    case None => Unauthorized(ErrorBody(Some(InvalidToken)))
    case Some(id) =>
      var r := AuthService.Refresh(env, s, id);
      if !r.success then Unauthorized(ErrorBody(r.error)) else OkResult(AuthBody(r))
  }

  /** `PUT profile`: there is no model-state check on this action. */
  function UpdateProfile(env: Env, s: Store, claims: seq<Claim>, dto: UpdateProfileDto): Outcome<ActionResult> {
    match UserIdOf(claims)
    case None => Outcome(Ok(Unauthorized(ErrorBody(Some(InvalidToken)))), s)
    case Some(id) =>
      var o := AuthService.UpdateProfile(env, s, id, dto);
      match o.result
      case Err(e) => Outcome(Err(e), o.store)
      case Ok(None) => Outcome(Ok(NotFoundResult(ErrorBody(Some(UserNotFound)))), o.store)
      case Ok(Some(u)) => Outcome(Ok(OkResult(UserBody(u))), o.store)
  }

  /**
   * Invalid input is 400 before the service runs; otherwise a refused
   * registration is 400 with the service's error and an accepted one is
   * 200 with the service's response.
   */
  lemma RegisterStatus(env: Env, s: Store, modelValid: bool, dto: RegisterDto)
    ensures var o := Register(env, s, modelValid, dto);
      var served := AuthService.Register(env, s, dto);
      && (!modelValid ==> o == Outcome(Ok(ActionResult(400, ModelErrors)), s))
      && (modelValid ==> o.store == served.store && (o.result.Err? <==> served.result.Err?))
      && (modelValid && served.result.Ok? ==>
            && (o.result.value.status == 200 <==> served.result.value.success)
            && (o.result.value.status == 200 ==> o.result.value.body == AuthBody(served.result.value))
            && (o.result.value.status != 200 ==>
                  o.result.value == ActionResult(400, ErrorBody(served.result.value.error))))
  {
  }

  /** A login the service refuses is 401 with its error, whether the e-mail or the password was wrong. */
  lemma LoginStatus(env: Env, s: Store, modelValid: bool, dto: LoginDto)
    ensures var o := Login(env, s, modelValid, dto);
      var served := AuthService.Login(env, s, dto);
      && (!modelValid ==> o == Outcome(Ok(ActionResult(400, ModelErrors)), s))
      && (modelValid && served.result.Ok? ==>
            && (o.result.value.status == 200 <==> served.result.value.success)
            && (o.result.value.status != 200 ==>
                  o.result.value == ActionResult(401, ErrorBody(served.result.value.error))))
      && (modelValid && AuthService.GetByEmail(env, s, dto.email).None? ==>
            o.result == Ok(ActionResult(401, ErrorBody(Some(InvalidCredentials)))))
  {
  }

  /**
   * Without a usable user id every token action answers 401 "Invalid
   * token" and leaves the store as it is; with one, a missing user is 404
   * for `me` and `profile` and 401 for `refresh`.
   */
  lemma TokenActions(env: Env, s: Store, claims: seq<Claim>, dto: UpdateProfileDto)
    requires UniqueBy(s.users, UserKey)
    ensures var invalid := ActionResult(401, ErrorBody(Some(InvalidToken)));
      && (UserIdOf(claims).None? ==>
            && Me(s, claims) == invalid && Refresh(env, s, claims) == invalid
            && UpdateProfile(env, s, claims, dto) == Outcome(Ok(invalid), s))
      && (UserIdOf(claims).Some? ==>
            var id := UserIdOf(claims).value;
            && (Me(s, claims).status == 404 <==> id !in UserIds(s))
            && (Refresh(env, s, claims).status == 401 <==>
                  !(exists u | u in s.users :: u.id == id && u.isActive))
            && (UpdateProfile(env, s, claims, dto).result == Ok(ActionResult(404, ErrorBody(Some(UserNotFound)))) <==>
                  !(exists u | u in s.users :: u.id == id && u.isActive)))
  {
    if UserIdOf(claims).Some? {
      var id := UserIdOf(claims).value;
      RefreshProps(env, s, id);
      UpdateProfileNull(env, s, id, dto);
    }
  }

  /** The user a token names is the one `me` shows, as long as that user is stored. */
  lemma MeShowsTokenUser(s: Store, u: User, jti: string)
    requires UniqueBy(s.users, UserKey) && u in s.users && Int32Min <= u.id <= Int32Max
    ensures Me(s, Claims(u, jti)) == ActionResult(200, UserBody(ToUserInfo(u)))
  {
    IssuedTokenNamesUser(u, jti);
    FindByUnique(s.users, UserKey, u);
  }
}
