/** The credentials provider and the two callbacks of the authentication configuration.
    The password hash comparison is the parameter `compare(plain, hash)`; the clock is the
    parameter `nowMs` (milliseconds since the epoch). Roles are opaque strings. */
module Auth {
  import opened Common

  /** The submitted form; either object may be missing a field. */
  datatype Credentials = Credentials(email: Option<string>, password: Option<string>)

  /** A user row; `password` is the stored hash, absent for accounts without one. */
  datatype UserRecord = UserRecord(id: string, email: string, name: Option<string>, role: string,
                                   password: Option<string>)

  /** What `authorize` hands to the session layer: the row without its password. */
  datatype AuthUser = AuthUser(id: string, email: string, name: Option<string>, role: string)

  datatype AuthError = MissingCredentials | InvalidCredentials

  /** The user table, looked up by its unique email. */
  type UsersByEmail = map<string, UserRecord>

  /** The submitted pair matches a stored account with a password. */
  predicate Matches(users: UsersByEmail, email: string, password: string, compare: (string, string) -> bool)
  {
    email in users && Truthy(users[email].password) && compare(password, users[email].password.value)
  }

  /** `authorize`: both fields are required before any lookup; an unknown email, an account
      without a password and a wrong password give one and the same error. */
  function Authorize(credentials: Option<Credentials>, users: UsersByEmail,
                     compare: (string, string) -> bool): (r: Result<AuthUser, AuthError>)
    ensures (credentials.None? || !Truthy(credentials.value.email) || !Truthy(credentials.value.password))
            <==> r == Err(MissingCredentials)
    ensures r.Err? ==> r.error == MissingCredentials || r.error == InvalidCredentials
    ensures r.Ok? <==> (credentials.Some? && Truthy(credentials.value.email) && Truthy(credentials.value.password) &&
                        Matches(users, credentials.value.email.value, credentials.value.password.value, compare))
    ensures r.Ok? ==> var u := users[credentials.value.email.value];
                      r.value == AuthUser(u.id, u.email, u.name, u.role)
  {
    if credentials.None? || !Truthy(credentials.value.email) || !Truthy(credentials.value.password) then
      Err(MissingCredentials)
    else
      var email := credentials.value.email.value;
      var password := credentials.value.password.value;
      if email !in users || !Truthy(users[email].password) then Err(InvalidCredentials)
      else if !compare(password, users[email].password.value) then Err(InvalidCredentials)
      else
        var user := users[email];
        Ok(AuthUser(user.id, user.email, user.name, user.role))
  }

  /** Incomplete credentials are refused by the same answer whatever the user table and the
      comparison hold: no lookup takes place. */
  lemma MissingCredentialsBeforeLookup(credentials: Option<Credentials>, users: UsersByEmail,
                                       compare: (string, string) -> bool, users': UsersByEmail,
                                       compare': (string, string) -> bool)
    requires credentials.None? || !Truthy(credentials.value.email) || !Truthy(credentials.value.password)
    ensures Authorize(credentials, users, compare) == Authorize(credentials, users', compare')
  {
  }

  /** A caller cannot tell an unknown email from a wrong password: complete credentials
      fail with the same error whichever of the two is the case. */
  lemma FailuresAreIndistinguishable(email: string, password: string, users: UsersByEmail,
                                     compare: (string, string) -> bool)
    requires email != "" && password != ""
    requires !Matches(users, email, password, compare)
    ensures Authorize(Some(Credentials(Some(email), Some(password))), users, compare) == Err(InvalidCredentials)
  {
  }

  const Day := 24 * 60 * 60
  const Week := 7 * 24 * 60 * 60

  /** `Number(token.exp || 0)`. */
  function ExpClaim(exp: Option<int>): int
  {
    if exp.Some? then exp.value else 0
  }

  /** Seconds since the epoch, `Math.floor(Date.now() / 1000)`. */
  function NowSeconds(nowMs: nat): (s: nat)
    ensures s * 1000 <= nowMs < (s + 1) * 1000
  {
    nowMs / 1000
  }

  /** A token with an expiry is refreshed when less than a day of it remains. */
  predicate ShouldRefresh(exp: int, nowMs: nat)
  {
    exp != 0 && exp - NowSeconds(nowMs) < Day
  }

  /** The expiry after the callback: a week from now when due, the same otherwise. */
  function NextExp(exp: int, nowMs: nat): (e: int)
    ensures ShouldRefresh(exp, nowMs) ==> e == NowSeconds(nowMs) + Week
    ensures !ShouldRefresh(exp, nowMs) ==> e == exp
    ensures e >= exp
    ensures e == 0 <==> exp == 0
  {
    if ShouldRefresh(exp, nowMs) then NowSeconds(nowMs) + Week else exp
  }

  /** A refreshed token leaves more than a day to run, so running the callback again at the
      same moment changes nothing. */
  lemma RefreshIsIdempotent(exp: int, nowMs: nat)
    ensures !ShouldRefresh(NextExp(exp, nowMs), nowMs) || exp == 0
    ensures NextExp(NextExp(exp, nowMs), nowMs) == NextExp(exp, nowMs)
  {
  }

  /** After the callback, a token with an expiry has at least a day left. */
  lemma RefreshLeavesADay(exp: int, nowMs: nat)
    requires exp != 0
    ensures NextExp(exp, nowMs) - NowSeconds(nowMs) >= Day
  {
  }

  /** The JWT payload; `id` and `role` are the claims the callbacks set. */
  class Token {
    var id: Option<string>
    var role: Option<string>
    var email: Option<string>
    var exp: Option<int>

    constructor (id: Option<string>, role: Option<string>, email: Option<string>, exp: Option<int>)
      ensures this.id == id && this.role == role && this.email == email && this.exp == exp
    {
      this.id := id;
      this.role := role;
      this.email := email;
      this.exp := exp;
    }
  }

  /** The `jwt` callback: copies the signed-in user's role and id onto the token it is
      given, then returns either that token or, when its expiry is due, a copy with the
      expiry moved a week from now. */
  method Jwt(token: Token, user: Option<AuthUser>, nowMs: nat) returns (result: Token)
    modifies token
    ensures user.Some? ==> token.id == Some(user.value.id) && token.role == Some(user.value.role)
    ensures user.None? ==> token.id == old(token.id) && token.role == old(token.role)
    ensures token.email == old(token.email) && token.exp == old(token.exp)
    ensures ShouldRefresh(ExpClaim(old(token.exp)), nowMs) ==>
              fresh(result) && result.exp == Some(NextExp(ExpClaim(old(token.exp)), nowMs)) &&
              result.id == token.id && result.role == token.role && result.email == token.email
    ensures !ShouldRefresh(ExpClaim(old(token.exp)), nowMs) ==> result == token
  {
    if user.Some? {
      token.role := Some(user.value.role);
      token.id := Some(user.value.id);
    }
    var exp := ExpClaim(token.exp);
    if exp != 0 {
      var shouldRefreshTime := exp - NowSeconds(nowMs) < Day;
      if shouldRefreshTime {
        result := new Token(token.id, token.role, token.email, Some(NowSeconds(nowMs) + Week));
        return;
      }
    }
    result := token;
  }

  /** The user part of a session. */
  class SessionUser {
    var id: Option<string>
    var role: Option<string>
    var email: Option<string>
    var name: Option<string>

    constructor (email: Option<string>, name: Option<string>)
      ensures this.email == email && this.name == name && id.None? && role.None?
    {
      this.email := email;
      this.name := name;
      id := None;
      role := None;
    }
  }

  class Session {
    var user: SessionUser?

    constructor (user: SessionUser?)
      ensures this.user == user
    {
      this.user := user;
    }
  }

  /** The `session` callback: when the session has a user, the token's id and role are
      copied onto it; the session object itself is returned. */
  method SessionCallback(session: Session, token: Token) returns (result: Session)
    modifies session.user
    ensures result == session && session.user == old(session.user)
    ensures session.user != null ==> session.user.id == token.id && session.user.role == token.role &&
                                     session.user.email == old(session.user.email) &&
                                     session.user.name == old(session.user.name)
  {
    if session.user != null {
      session.user.id := token.id;
      session.user.role := token.role;
    }
    result := session;
  }
}
