/**
 * Sequences of requests served against the one user table of
 * app/api/v1/endpoints/auth.py. Only `signup` writes to the table; `login`,
 * `read_users_me` and `refresh_token` leave it as it is (their methods in
 * `Auth.AuthService` have no `modifies` clause).
 */
module Session {
  import opened Wrappers
  import opened JwtHandler
  import opened Auth

  /** One request to one of the four endpoints. */
  datatype Request =
    | SignupRequest(user: UserCreate)
    | LoginRequest(username: string, password: string)
    | MeRequest(token: Token)
    | RefreshRequest(refreshToken: Token)

  /** The table after serving `requests` in order, starting from `users`. */
  function StoreAfter(users: Store, requests: seq<Request>): (r: Store)
    decreases |requests|
  {
    if requests == [] then users
    else
      var next := if requests[0].SignupRequest? then SignupStore(users, requests[0].user) else users;
      StoreAfter(next, requests[1..])
  }

  /** The earliest signup request in `requests` for `email`, if any. */
  function FirstSignup(requests: seq<Request>, email: string): (r: Option<UserCreate>)
    decreases |requests|
  {
    if requests == [] then None
    else if requests[0].SignupRequest? && requests[0].user.email == email then Some(requests[0].user)
    else FirstSignup(requests[1..], email)
  }

  /** Records are never updated or deleted: whatever is in the table stays, unchanged. */
  lemma {:induction false} RecordsArePermanent(users: Store, requests: seq<Request>)
    ensures forall e :: e in users ==> e in StoreAfter(users, requests) && StoreAfter(users, requests)[e] == users[e]
    decreases |requests|
  {
    if requests != [] {
      var next := if requests[0].SignupRequest? then SignupStore(users, requests[0].user) else users;
      RecordsArePermanent(next, requests[1..]);
    }
  }

  /**
   * For an email not yet in the table, the first signup for it creates its
   * record and every later signup for it is refused: the email ends up in the
   * table exactly when some request signed it up, with the first request's name
   * and password.
   */
  lemma {:induction false} FirstSignupWins(users: Store, requests: seq<Request>, email: string)
    requires email !in users
    ensures email in StoreAfter(users, requests) <==> FirstSignup(requests, email).Some?
    ensures email in StoreAfter(users, requests) ==>
      StoreAfter(users, requests)[email]
        == UserRecord(FirstSignup(requests, email).value.fullName, FirstSignup(requests, email).value.password)
    decreases |requests|
  {
    if requests != [] {
      var next := if requests[0].SignupRequest? then SignupStore(users, requests[0].user) else users;
      if requests[0].SignupRequest? && requests[0].user.email == email {
        RecordsArePermanent(next, requests[1..]);
      } else {
        FirstSignupWins(next, requests[1..], email);
      }
    }
  }

  /** Serving requests whose signup bodies all passed validation keeps every stored entry valid. */
  lemma {:induction false} ValidityPreserved(validateEmail: string -> Option<string>, users: Store, requests: seq<Request>)
    requires ValidStore(validateEmail, users)
    requires forall i :: 0 <= i < |requests| && requests[i].SignupRequest? ==> ValidUserCreate(validateEmail, requests[i].user)
    ensures ValidStore(validateEmail, StoreAfter(users, requests))
    decreases |requests|
  {
    if requests != [] {
      var next := if requests[0].SignupRequest? then SignupStore(users, requests[0].user) else users;
      assert ValidStore(validateEmail, next);
      forall i | 0 <= i < |requests[1..]| && requests[1..][i].SignupRequest?
        ensures ValidUserCreate(validateEmail, requests[1..][i].user)
      {
        assert requests[1..][i] == requests[i + 1];
      }
      ValidityPreserved(validateEmail, next, requests[1..]);
    }
  }
}
