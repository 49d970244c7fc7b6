/**
 * The authentication endpoints (app/api/v1/endpoints/auth.py): an in-memory
 * user table keyed by email, and the signup, login, current-user and refresh
 * handlers over it.
 *
 * Each handler's outcome is either a value or an HTTP error carrying the
 * status code and detail text the source raises. The specification functions
 * below describe each handler on values; class `AuthService` holds the table
 * the source keeps in the module-level dictionary `fake_users_db`, and its
 * methods are proved to behave as those functions say.
 */
module Auth {
  import opened Wrappers
  import opened JwtHandler

  /** `settings.ACCESS_TOKEN_EXPIRE_MINUTES` (app/core/config.py). */
  const AccessTokenExpireMinutes: int := 30
  /** The same lifetime in seconds, the unit of the model's clock. */
  const AccessTokenLifetime: int := AccessTokenExpireMinutes * 60

  /** `constr(min_length=6)` on the signup password. */
  const MinPasswordLength: nat := 6

  const BearerType: string := "bearer"

  const BadRequest: int := 400
  const Unauthorized: int := 401
  const UnprocessableEntity: int := 422

  const UserExists: string := "Usu\U{E1}rio j\U{E1} existe"
  const InvalidCredentials: string := "Usu\U{E1}rio ou senha inv\U{E1}lidos"
  const InvalidToken: string := "Token inv\U{E1}lido ou usu\U{E1}rio n\U{E3}o encontrado"
  const InvalidRefreshToken: string := "Refresh token inv\U{E1}lido"
  /** Stands for the list of field errors the request validator reports. */
  const ValidationFailed: string := "value is not valid"

  /** A stored user: display name and plaintext password. */
  datatype UserRecord = UserRecord(fullName: Option<string>, password: string)

  /** The user table, from email to record. */
  type Store = map<string, UserRecord>

  /** The signup request body (`UserCreate`). */
  datatype UserCreate = UserCreate(email: string, fullName: Option<string>, password: string)

  /** The user as the service returns it (`User`): no password. */
  datatype User = User(email: string, fullName: Option<string>)

  /** The body of a successful login or refresh. */
  datatype TokenResponse = TokenResponse(accessToken: Token, tokenType: string)

  /** A handler's outcome: a value, or the `HTTPException` it raises. */
  datatype Response<T> = Ok(value: T) | HttpError(status: int, detail: string)

  /**
   * The email-address check of `EmailStr`: `validateEmail(raw)` is `None` for an
   * address it refuses, and otherwise the normalised address it accepts `raw` as
   * (surrounding blanks and any display name removed, domain lower-cased). The
   * model leaves the validator abstract.
   */
  ghost predicate IsNormalizedEmail(validateEmail: string -> Option<string>, email: string)
  {
    exists raw :: validateEmail(raw) == Some(email)
  }

  /** The field constraints a parsed `UserCreate` satisfies. */
  ghost predicate ValidUserCreate(validateEmail: string -> Option<string>, request: UserCreate)
  {
    IsNormalizedEmail(validateEmail, request.email) && |request.password| >= MinPasswordLength
  }

  /**
   * Building a `UserCreate` from a request body: 422 unless every field
   * constraint holds; the accepted request carries the normalised email.
   */
  function ParseUserCreate(validateEmail: string -> Option<string>, email: string, fullName: Option<string>,
                           password: string): (r: Response<UserCreate>)
    ensures r.Ok? <==> validateEmail(email).Some? && |password| >= MinPasswordLength
    ensures r.Ok? ==>
      r.value == UserCreate(validateEmail(email).value, fullName, password) && ValidUserCreate(validateEmail, r.value)
    ensures r.HttpError? ==> r.status == UnprocessableEntity
  {
    var normalized := validateEmail(email);
    if normalized.Some? && |password| >= MinPasswordLength then Ok(UserCreate(normalized.value, fullName, password))
    else HttpError(UnprocessableEntity, ValidationFailed)
  }

  /** Every entry of the table could have come through a validated signup request. */
  ghost predicate ValidStore(validateEmail: string -> Option<string>, users: Store)
  {
    forall e :: e in users ==> IsNormalizedEmail(validateEmail, e) && |users[e].password| >= MinPasswordLength
  }

  /** `fake_users_db.get(key)`. */
  function Lookup(users: Store, key: string): (r: Option<UserRecord>)
    ensures r.Some? <==> key in users
    ensures r.Some? ==> r.value == users[key]
  {
    if key in users then Some(users[key]) else None
  }

  // ---------------------------------------------------------------------------
  // The handlers on values

  /** The table after `signup`: unchanged for a known email, one new entry otherwise. */
  function SignupStore(users: Store, request: UserCreate): (s: Store)
    ensures request.email in users ==> s == users
    ensures request.email !in users ==>
      && s.Keys == users.Keys + {request.email}
      && |s| == |users| + 1
      && s[request.email] == UserRecord(request.fullName, request.password)
    ensures forall e :: e in users ==> e in s && s[e] == users[e]
  {
    if request.email in users then users
    else users[request.email := UserRecord(request.fullName, request.password)]
  }

  /** The response of `signup`: 400 for a known email, else the new user without its password. */
  function SignupResult(users: Store, request: UserCreate): (r: Response<User>)
    ensures r.HttpError? <==> request.email in users
    ensures r.HttpError? ==> r == HttpError(BadRequest, UserExists)
    ensures r.Ok? ==> r.value.email == request.email && r.value.fullName == request.fullName
  {
    if request.email in users then HttpError(BadRequest, UserExists)
    else Ok(User(request.email, request.fullName))
  }

  /**
   * The token `login` and `refresh_token` mint for a subject: the signed claim
   * set holding just that `sub` and an `exp` `AccessTokenExpireMinutes` ahead.
   */
  function IssueFor(encode: Claims -> Token, subject: Value, now: int): (r: Token)
    ensures r == encode(map["sub" := subject, "exp" := Num(now + AccessTokenLifetime)])
  {
    CreateAccessToken(encode, map["sub" := subject], now, Some(AccessTokenLifetime))
  }

  /**
   * The response of `login`: a bearer token for the user when the password
   * matches the stored one; one and the same 400 error for an unknown email and
   * for a wrong password.
   */
  function LoginResult(users: Store, encode: Claims -> Token, username: string, password: string, now: int)
    : (r: Response<TokenResponse>)
    ensures r.Ok? <==> username in users && users[username].password == password
    ensures r.HttpError? ==> r == HttpError(BadRequest, InvalidCredentials)
    ensures r.Ok? ==> r.value == TokenResponse(IssueFor(encode, Str(username), now), BearerType)
  {
    var user := Lookup(users, username);
    if user.None? || password != user.value.password then HttpError(BadRequest, InvalidCredentials)
    else Ok(TokenResponse(IssueFor(encode, Str(username), now), BearerType))
  }

  /**
   * The check `get_current_user` and `refresh_token` share: the email the token
   * verifies to, when that is a string naming a user in the table.
   */
  function Subject(users: Store, decode: (Token, int) -> Decoded, token: Token, now: int): (r: Option<string>)
    ensures r.Some? <==>
      VerifyToken(decode, token, now).Some? && VerifyToken(decode, token, now).value.Str?
      && VerifyToken(decode, token, now).value.s in users
    ensures r.Some? ==> r.value in users && VerifyToken(decode, token, now) == Some(Str(r.value))
  {
    var username := VerifyToken(decode, token, now);
    // a subject that is not a string is never a key of the table
    if username.None? || !username.value.Str? || username.value.s !in users then None
    else Some(username.value.s)
  }

  /** The response of `get_current_user`: the stored user the token names, else 401. */
  function CurrentUser(users: Store, decode: (Token, int) -> Decoded, token: Token, now: int): (r: Response<User>)
    ensures r.Ok? <==> Subject(users, decode, token, now).Some?
    ensures r.HttpError? ==> r == HttpError(Unauthorized, InvalidToken)
    ensures r.Ok? ==>
      r.value.email in users && VerifyToken(decode, token, now) == Some(Str(r.value.email))
      && r.value.fullName == users[r.value.email].fullName
  {
    var username := Subject(users, decode, token, now);
    if username.None? then HttpError(Unauthorized, InvalidToken)
    else Ok(User(username.value, users[username.value].fullName))
  }

  /** The response of `refresh_token`: a fresh bearer token for the subject the token names, else 401. */
  function RefreshResult(users: Store, encode: Claims -> Token, decode: (Token, int) -> Decoded,
                         refreshToken: Token, now: int): (r: Response<TokenResponse>)
    ensures r.Ok? <==> Subject(users, decode, refreshToken, now).Some?
    ensures r.HttpError? ==> r == HttpError(Unauthorized, InvalidRefreshToken)
    ensures r.Ok? ==>
      exists e :: e in users && VerifyToken(decode, refreshToken, now) == Some(Str(e))
        && r.value == TokenResponse(IssueFor(encode, Str(e), now), BearerType)
  {
    var username := Subject(users, decode, refreshToken, now);
    if username.None? then HttpError(Unauthorized, InvalidRefreshToken)
    else Ok(TokenResponse(IssueFor(encode, Str(username.value), now), BearerType))
  }

  // ---------------------------------------------------------------------------
  // Properties relating the handlers

  /** Signing up and then logging in with the same credentials succeeds. */
  lemma SignupThenLogin(users: Store, encode: Claims -> Token, request: UserCreate, now: int)
    requires SignupResult(users, request).Ok?
    ensures LoginResult(SignupStore(users, request), encode, request.email, request.password, now).Ok?
  {
  }

  /**
   * A token from a successful login identifies the same user to `get_current_user`
   * for `AccessTokenExpireMinutes` after the login, and is refused after that.
   */
  lemma LoginThenCurrentUser(users: Store, encode: Claims -> Token, decode: (Token, int) -> Decoded,
                             username: string, password: string, loginAt: int, now: int)
    requires Sound(encode, decode)
    requires LoginResult(users, encode, username, password, loginAt).Ok?
    ensures CurrentUser(users, decode, LoginResult(users, encode, username, password, loginAt).value.accessToken, now)
      == if now <= loginAt + AccessTokenLifetime then Ok(User(username, users[username].fullName))
         else HttpError(Unauthorized, InvalidToken)
  {
    IssuedTokenVerifiesUntilExpiry(encode, decode, map["sub" := Str(username)], loginAt, Some(AccessTokenLifetime), now);
  }

  /**
   * A refreshed token names the same subject as the token it replaces and is
   * valid for `AccessTokenExpireMinutes` after the refresh.
   */
  lemma RefreshKeepsSubject(users: Store, encode: Claims -> Token, decode: (Token, int) -> Decoded,
                            refreshToken: Token, refreshedAt: int, now: int)
    requires Sound(encode, decode)
    requires RefreshResult(users, encode, decode, refreshToken, refreshedAt).Ok?
    ensures VerifyToken(decode, RefreshResult(users, encode, decode, refreshToken, refreshedAt).value.accessToken, now)
      == if now <= refreshedAt + AccessTokenLifetime then VerifyToken(decode, refreshToken, refreshedAt) else None
  {
    var subject := VerifyToken(decode, refreshToken, refreshedAt).value;
    IssuedTokenVerifiesUntilExpiry(encode, decode, map["sub" := subject], refreshedAt, Some(AccessTokenLifetime), now);
  }

  /**
   * Nothing makes a refreshed token differ from the one a login mints: a refresh
   * and a login for the same user in the same second yield identical tokens.
   */
  lemma RefreshCanRepeatLogin(users: Store, encode: Claims -> Token, decode: (Token, int) -> Decoded,
                              refreshToken: Token, username: string, password: string, now: int)
    requires LoginResult(users, encode, username, password, now).Ok?
    requires VerifyToken(decode, refreshToken, now) == Some(Str(username))
    ensures RefreshResult(users, encode, decode, refreshToken, now)
      == LoginResult(users, encode, username, password, now)
  {
  }

  /**
   * Signup keys the table by the normalised address: once an address is stored,
   * a signup with any spelling the validator normalises to it is refused.
   */
  lemma NormalizedDuplicateRejected(validateEmail: string -> Option<string>, users: Store,
                                    first: UserCreate, email: string, fullName: Option<string>, password: string)
    requires ParseUserCreate(validateEmail, email, fullName, password).Ok?
    requires validateEmail(email) == Some(first.email)
    ensures SignupResult(SignupStore(users, first), ParseUserCreate(validateEmail, email, fullName, password).value)
      == HttpError(BadRequest, UserExists)
  {
  }

  // ---------------------------------------------------------------------------
  // The service with its table

  class AuthService {
    /** `fake_users_db`: the only state of the service. */
    var users: Store
    /** `jwt.encode` with the configured secret and algorithm. */
    const encode: Claims -> Token
    /** `jwt.decode` with the configured secret and algorithm, at a given instant. */
    const decode: (Token, int) -> Decoded
    /** The email-address validator that request parsing applies. */
    ghost const validateEmail: string -> Option<string>

    /** Every stored entry came through a validated signup request. */
    ghost predicate Valid()
      reads this
    {
      ValidStore(validateEmail, users)
    }

    constructor (encode: Claims -> Token, decode: (Token, int) -> Decoded, ghost validateEmail: string -> Option<string>)
      ensures Valid() && users == map[]
      ensures this.encode == encode && this.decode == decode && this.validateEmail == validateEmail
    {
      users := map[];
      this.encode := encode;
      this.decode := decode;
      this.validateEmail := validateEmail;
    }

    /** `signup`: reject a known email, otherwise store the new user. */
    method Signup(request: UserCreate) returns (r: Response<User>)
      requires Valid() && ValidUserCreate(validateEmail, request)
      modifies this
      ensures Valid()
      ensures users == SignupStore(old(users), request)
      ensures r == SignupResult(old(users), request)
    {
      if request.email in users {
        return HttpError(BadRequest, UserExists);
      }
      users := users[request.email := UserRecord(request.fullName, request.password)];
      r := Ok(User(request.email, request.fullName));
    }

    /** `login`; it reads the table and does not change it. */
    method Login(username: string, password: string, now: int) returns (r: Response<TokenResponse>)
      ensures r == LoginResult(users, encode, username, password, now)
    {
      var user := Lookup(users, username);
      if user.None? || password != user.value.password {
        return HttpError(BadRequest, InvalidCredentials);
      }
      var accessToken := CreateAccessToken(encode, map["sub" := Str(username)], now, Some(AccessTokenLifetime));
      r := Ok(TokenResponse(accessToken, BearerType));
    }

    /** `get_current_user`; it reads the table and does not change it. */
    method GetCurrentUser(token: Token, now: int) returns (r: Response<User>)
      ensures r == CurrentUser(users, decode, token, now)
    {
      var username := VerifyToken(decode, token, now);
      if username.None? || !username.value.Str? || username.value.s !in users {
        return HttpError(Unauthorized, InvalidToken);
      }
      var userData := users[username.value.s];
      r := Ok(User(username.value.s, userData.fullName));
    }

    /** `read_users_me`: the current user, as `get_current_user` resolves it. */
    method ReadUsersMe(token: Token, now: int) returns (r: Response<User>)
      ensures r.Ok? <==> Subject(users, decode, token, now).Some?
      ensures r.Ok? ==> r.value == User(Subject(users, decode, token, now).value,
                                        users[Subject(users, decode, token, now).value].fullName)
      ensures r.HttpError? ==> r == HttpError(Unauthorized, InvalidToken)
    {
      r := GetCurrentUser(token, now);
    }

    /** `refresh_token`; it reads the table and does not change it. */
    method RefreshToken(refreshToken: Token, now: int) returns (r: Response<TokenResponse>)
      ensures r == RefreshResult(users, encode, decode, refreshToken, now)
    {
      var username := VerifyToken(decode, refreshToken, now);
      if username.None? || !username.value.Str? || username.value.s !in users {
        return HttpError(Unauthorized, InvalidRefreshToken);
      }
      var newAccessToken := CreateAccessToken(encode, map["sub" := username.value], now, Some(AccessTokenLifetime));
      r := Ok(TokenResponse(newAccessToken, BearerType));
    }
  }
}
