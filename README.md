# Verified model of a minimal token-based authentication service

The service keeps one in-memory user table, keyed by email, holding each
user's display name and plaintext password. Four HTTP endpoints work on it:

- `signup` adds a user unless the email is already taken (400).
- `login` compares the plaintext password and issues a signed bearer token (400 on failure).
- `me` resolves a bearer token to the stored user (401 on failure).
- `refresh` re-issues a token for the subject of a still-valid token (401 on failure).

Tokens are JWTs signed with HS256. The service builds their claim set itself:
a copy of the caller's claims with `exp` set to now plus a lifetime, 15 minutes
by default. It reads the `sub` claim back out of a decoded token.

The model has four modules:

- `Wrappers` (wrappers.dfy): `Option`, for Python's `Optional` and `None` results.
- `JwtHandler` (jwt_handler.dfy): claim construction and subject extraction, as pure
  functions. The encoder and the decoder are parameters. The clock is an integer `now`
  in seconds, and durations are whole seconds.
- `Auth` (auth.dfy): one specification function per handler, and class
  `AuthService`. The class holds the table as a `map` field, and the encoder, the
  decoder and the email validator as constants. Its methods are proved equal to the
  specification functions. Only `Signup` has a `modifies` clause, so the
  other handlers cannot change the table.
- `Session` (session.dfy): sequences of requests against one table, with
  inductive lemmas showing that records are permanent and that the first signup for
  an email wins.

Token round-trips hold only under an explicit hypothesis,
`JwtHandler.Sound(encode, decode)`. It covers only the claim sets this service
mints: a string `sub` and a numeric `exp`, nothing else. Such a set decodes back
unchanged up to its `exp` instant and is rejected as expired after it. The lemmas
that need it take it as a `requires`. It is never proved.

Three points about the code itself:

- `verify_token` returns whatever non-null value `sub` holds. The model's
  `VerifyToken` therefore returns a `Value`, and `Auth.Subject` accepts only a string
  that is a table key, as the membership test does. The abstract decoder may yield
  a non-string `sub`; the decoding library refuses one, so here the model allows
  more than the library does.
- Nothing makes a refreshed token differ from the one it replaces. Two tokens
  minted in the same second for the same subject have identical claims, and HS256
  is deterministic (`Auth.RefreshCanRepeatLogin`).
- Request validation (422) happens before the `signup` handler runs.
  `ParseUserCreate` models it, and `AuthService.Signup` requires a validated request.
  The table is keyed by the normalised address the email validator returns.

## Model

| member | source | states |
|---|---|---|
| `JwtHandler.ClaimsToEncode` | app/services/jwt_handler.py:10-15 | The claims carry every key of `data` with its value except `exp`. `exp` is always present, overriding the caller's, and equals now + `expires_delta` when the delta is truthy, else now + 15 minutes (delta `None` or zero). |
| `JwtHandler.CreateAccessToken` | app/services/jwt_handler.py:7-19 | The token is the encoder applied to the caller's claims with `exp` set to now + `expires_delta` when the delta is truthy, and to now + 15 minutes when it is `None` or zero. |
| `JwtHandler.VerifyToken` | app/services/jwt_handler.py:22-32 | Returns `None` on every decode failure (bad signature, malformed, expired, bad claims). Otherwise it returns the `sub` value exactly when `sub` is present and not null, and `None` when it is missing. |
| `JwtHandler.IssuedTokenVerifiesUntilExpiry` | app/services/jwt_handler.py:7-32 | Under `Sound`, a token minted for claims holding only a string `sub` verifies to that `sub` up to its expiry and to `None` after it. |
| `Auth.ParseUserCreate` | app/api/v1/endpoints/auth.py:15-18 | A signup body is accepted iff the validator accepts the email and the password has at least 6 characters; otherwise 422. The accepted request carries the normalised email the validator returns. |
| `Auth.Lookup` | app/api/v1/endpoints/auth.py:63 | `get` on the table: `Some` exactly for keys, with the stored record. |
| `Auth.SignupStore` | app/api/v1/endpoints/auth.py:47-55 | A known email leaves the table unchanged. A fresh email adds exactly one key (size grows by one) mapped to the given name and password. Every existing entry is unchanged. |
| `Auth.SignupResult` | app/api/v1/endpoints/auth.py:47-56 | 400 "user exists" iff the email is already a key; otherwise the response carries the given email and name and no password. |
| `Auth.LoginResult` | app/api/v1/endpoints/auth.py:63-75 | Succeeds iff the username is a key and the password equals the stored one. Unknown user and wrong password give the identical 400 error. On success the token type is `bearer` and the token is minted for `sub` = username with a 30-minute lifetime. |
| `Auth.Subject` | app/api/v1/endpoints/auth.py:33-34 | Resolves a token to an email iff it verifies to a string subject that is a table key. |
| `Auth.CurrentUser` | app/api/v1/endpoints/auth.py:32-40 | 401 iff the verified subject is `None` or not a key. Otherwise the user's email is the subject and the name is the stored name. |
| `Auth.RefreshResult` | app/api/v1/endpoints/auth.py:91-103 | 401 iff the verified subject is `None` or not a key. Otherwise it returns a bearer token minted for that subject with the 30-minute lifetime. |
| `Auth.IssueFor` | app/api/v1/endpoints/auth.py:70-74 | The token login and refresh mint is the encoder applied to exactly `{sub: subject, exp: now + 30 minutes}`. |
| `Auth.RefreshCanRepeatLogin` | app/api/v1/endpoints/auth.py:91-103 | A refresh and a login for the same user at the same instant return the identical response, so a refreshed token need not differ. |
| `Auth.NormalizedDuplicateRejected` | app/api/v1/endpoints/auth.py:16 | Once an address is stored, a signup whose email the validator normalises to it gets 400, however it was spelled. |
| `Auth.SignupThenLogin` | app/api/v1/endpoints/auth.py:47-75 | After a successful signup, login with the same email and password succeeds. |
| `Auth.LoginThenCurrentUser` | app/api/v1/endpoints/auth.py:32-75 | Under `Sound`, a login token resolves to the same user for 30 minutes after login and gives 401 afterwards. |
| `Auth.RefreshKeepsSubject` | app/api/v1/endpoints/auth.py:91-103 | Under `Sound`, a refreshed token verifies to the subject of the token it replaced for 30 minutes after the refresh, and to `None` afterwards. |
| `Auth.AuthService.constructor` | app/api/v1/endpoints/auth.py:12 | The table starts empty. |
| `Auth.AuthService.Signup` | app/api/v1/endpoints/auth.py:42-56 | Only a validated request is accepted. The new table is `SignupStore` of the old one and the response is `SignupResult`. The invariant that every entry came through validation is kept. |
| `Auth.AuthService.Login` | app/api/v1/endpoints/auth.py:58-75 | Returns `LoginResult` of the current table and changes nothing. |
| `Auth.AuthService.GetCurrentUser` | app/api/v1/endpoints/auth.py:32-40 | Returns `CurrentUser` of the current table and changes nothing. |
| `Auth.AuthService.ReadUsersMe` | app/api/v1/endpoints/auth.py:77-82 | Succeeds iff the token resolves to a key, returning that email and its stored name; otherwise 401. It changes nothing. |
| `Auth.AuthService.RefreshToken` | app/api/v1/endpoints/auth.py:84-103 | Returns `RefreshResult` of the current table and changes nothing. |
| `Session.RecordsArePermanent` | app/api/v1/endpoints/auth.py:47-55 | Over any sequence of requests, every record present at the start is still present and unchanged. |
| `Session.FirstSignupWins` | app/api/v1/endpoints/auth.py:47-55 | For an email not yet stored, it ends up in the table iff some request signed it up. Its record is the first such request's name and password; later duplicates are rejected whatever their other fields. |
| `Session.ValidityPreserved` | app/api/v1/endpoints/auth.py:15-18 | If every signup body passed validation, every stored key is an address the validator returns and every stored password has at least 6 characters after any sequence of requests. |

## Left out

- HTTP routing, `HTTPException` and response serialisation are not modelled. Bearer-header extraction (`OAuth2PasswordBearer`) and form parsing are left out too. Outcomes are a `Response` value carrying the status code and detail text.
- The 422 response body (pydantic's list of field errors) is not modelled; it is a fixed detail string.
- Email syntax and normalisation (pydantic's `EmailStr`) are an abstract function `validateEmail`, supplied to the model. It returns `None` for a refused address and the normalised address otherwise.
- JwtHandler.IssuedTokenVerifiesUntilExpiry: stated only for claim sets holding just a string `sub`, the ones the service mints. For other shapes the decoding library applies checks (`aud`, `nbf`, non-string `sub`) that the model does not describe.
- Signing and verification (`jose` `jwt.encode`/`jwt.decode`, HS256) are abstract functions. Their round-trip for the claim sets the service mints is the hypothesis `JwtHandler.Sound`, not a proved fact.
- The signing secret and algorithm (app/core/config.py:7-8) live inside the abstract encoder and decoder. `ACCESS_TOKEN_EXPIRE_MINUTES` is the constant 30 (app/core/config.py:9).
- Wall-clock time is not modelled: each call takes `now` in whole seconds. Sub-second `timedelta` precision is not modelled.
- app/services/jwt_handler.py:12 and :14 call `datetime.utcnow(timezone.utc)`. `utcnow` takes no argument, so as written these lines raise `TypeError` and token creation fails. The model uses the evident intent, expiry = now + lifetime, and proves nothing about the failing call.
- Claim values are JSON null, strings and integers. Lists and objects as `sub` are not modelled; in Python an unhashable `sub` would make the membership test raise.
- The caller's `data` dictionary is not modified by `create_access_token`, because the model's maps are immutable values. Nothing needs to be stated about it.
- Concurrency is not modelled: the check-then-insert race on the shared table belongs to the request runtime.
- Passwords are stored and compared in plaintext, as in the source; no hashing is modelled.
- app/models/user.py is a duplicate of the `User` response schema and has no logic.
- The detail strings are the decoded Portuguese texts. The source file's bytes show these accented letters double-encoded as UTF-8.
