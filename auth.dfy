/**
 * The decisions of `register_user_handler` and `login_user_handler` over the `users` table, kept
 * here as a map from the stored (lower-cased) email to the row. Password hashing and verification
 * are a hash value and a predicate supplied by the caller.
 */
module Auth {
  import opened Wrappers
  import opened Errors
  import opened Text

  /** A row of the `users` table. */
  datatype User = User(
    id: string,
    name: string,
    email: string,
    password: string,
    role: string,
    photo: string,
    verified: int,
    createdAt: int,
    updatedAt: int)

  /** The user as the API shows it: no password, `verified` as a boolean. */
  datatype FilteredUser = FilteredUser(
    id: string,
    email: string,
    name: string,
    photo: string,
    role: string,
    verified: bool,
    createdAt: int,
    updatedAt: int)

  datatype RegisterUserSchema = RegisterUserSchema(name: string, email: string, password: string)

  datatype LoginUserSchema = LoginUserSchema(email: string, password: string)

  /** The claims of the session token: subject, issued-at and expiry, in seconds. */
  datatype TokenClaims = TokenClaims(sub: string, iat: nat, exp: nat)

  /** The values the table gives the columns registration does not set. */
  datatype ColumnDefaults = ColumnDefaults(role: string, photo: string, verified: int)

  /** A successful registration: the new table and the user shown to the client. */
  datatype Registered = Registered(users: map<string, User>, user: FilteredUser)

  /** Sixty minutes. */
  const TokenLifetime: nat := 60 * 60

  /** Every row is stored under its own email, which is lower-case. */
  ghost predicate UsersWellFormed(users: map<string, User>) {
    forall e :: e in users ==> users[e].email == e && Lower(e) == e
  }

  /** `filter_user_record`. */
  function FilterUserRecord(u: User): (r: FilteredUser)
    ensures r.id == u.id && r.email == u.email
    ensures r.verified <==> u.verified != 0
  {
    FilteredUser(u.id, u.email, u.name, u.photo, u.role, u.verified != 0, u.createdAt, u.updatedAt)
  }

  /** What the API shows of a user does not depend on the stored password hash. */
  lemma FilterUserRecordHidesPassword(u: User, hash: string)
    ensures FilterUserRecord(u.(password := hash)) == FilterUserRecord(u)
    ensures FilterUserRecord(u).verified <==> u.verified != 0
  {
  }

  /** The row the INSERT of registration stores: the email lower-cased, the password replaced by its hash. */
  function NewUser(id: string, body: RegisterUserSchema, hash: string, defaults: ColumnDefaults, now: int): (u: User)
    ensures u.id == id && u.email == Lower(body.email) && u.password == hash
    ensures u.email == Lower(u.email)
  {
    User(id, body.name, Lower(body.email), hash, defaults.role, defaults.photo, defaults.verified, now, now)
  }

  /**
   * `register_user_handler`: Conflict when a user with the lower-cased email exists, a hashing
   * error when the hasher (whose result is `hashed`) fails, otherwise the new row stored under
   * its lower-cased email and shown by `filter_user_record`.
   */
  function RegisterUser(users: map<string, User>, body: RegisterUserSchema, hashed: Option<string>,
                        id: string, defaults: ColumnDefaults, now: int): (r: Result<Registered, Failure>)
    ensures r == Err(EmailConflict) <==> Lower(body.email) in users
    ensures r == Err(HashingFailed) <==> Lower(body.email) !in users && hashed.None?
    ensures r.Ok? <==> Lower(body.email) !in users && hashed.Some?
    ensures r.Ok? ==>
      && hashed.Some?
      && r.value.users == users[Lower(body.email) := NewUser(id, body, hashed.value, defaults, now)]
      && r.value.user == FilterUserRecord(NewUser(id, body, hashed.value, defaults, now))
      && (UsersWellFormed(users) ==> UsersWellFormed(r.value.users))
  {
    var email := Lower(body.email);
    if email in users then Err(EmailConflict)
    else if hashed.None? then Err(HashingFailed)
    else
      var user := NewUser(id, body, hashed.value, defaults, now);
      LowerIdempotent(body.email);
      var table := users[email := user];
      Ok(Registered(table, FilterUserRecord(table[email])))
  }

  /**
   * `login_user_handler`: unknown email and a password that does not verify give the same
   * failure; otherwise the claims name the user and expire sixty minutes after `now`.
   * `verify(password, hash)` stands for parsing the stored hash and checking the password against it.
   */
  function LoginUser(users: map<string, User>, body: LoginUserSchema, verify: (string, string) -> bool, now: nat):
    (r: Result<TokenClaims, Failure>)
    ensures r.Ok? <==> Lower(body.email) in users && verify(body.password, users[Lower(body.email)].password)
    ensures r.Err? ==> r.error == InvalidCredentials && r.error.Status() == 400
    ensures r.Ok? ==> r.value.sub == users[Lower(body.email)].id && r.value.iat == now && r.value.exp == now + TokenLifetime
  {
    var email := Lower(body.email);
    if email !in users then Err(InvalidCredentials)
    else
      var user := users[email];
      if !verify(body.password, user.password) then Err(InvalidCredentials)
      else Ok(TokenClaims(user.id, now, now + TokenLifetime))
  }

  /** An unknown email and a wrong password are answered identically. */
  lemma LoginFailuresIndistinguishable(users: map<string, User>, unknown: LoginUserSchema, wrong: LoginUserSchema,
                                       verify: (string, string) -> bool, now: nat)
    requires Lower(unknown.email) !in users
    requires Lower(wrong.email) in users && !verify(wrong.password, users[Lower(wrong.email)].password)
    ensures LoginUser(users, unknown, verify, now) == LoginUser(users, wrong, verify, now)
  {
  }

  /** Emails are compared without regard to case: registering a case variant of a stored email conflicts. */
  lemma RegisterIgnoresEmailCase(users: map<string, User>, first: RegisterUserSchema, second: RegisterUserSchema,
                                 h1: Option<string>, h2: Option<string>, id1: string, id2: string,
                                 defaults: ColumnDefaults, now: int)
    requires SameIgnoringCase(first.email, second.email)
    requires RegisterUser(users, first, h1, id1, defaults, now).Ok?
    ensures var after := RegisterUser(users, first, h1, id1, defaults, now).value.users;
      RegisterUser(after, second, h2, id2, defaults, now) == Err(EmailConflict)
  {
  }

  /**
   * A registered user can log in with the same password and the email in any case, provided the
   * hasher's output verifies against that password; the token names the new user.
   */
  lemma RegisterThenLogin(users: map<string, User>, body: RegisterUserSchema, hash: string, id: string,
                          defaults: ColumnDefaults, now: nat, login: LoginUserSchema, verify: (string, string) -> bool)
    requires RegisterUser(users, body, Some(hash), id, defaults, now).Ok?
    requires SameIgnoringCase(login.email, body.email) && login.password == body.password
    requires verify(body.password, hash)
    ensures var after := RegisterUser(users, body, Some(hash), id, defaults, now).value.users;
      LoginUser(after, login, verify, now) == Ok(TokenClaims(id, now, now + TokenLifetime))
  {
  }
}
