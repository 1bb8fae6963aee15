/** Password registration and login: the duplicate checks of a
    registration and the decision order of a login, over the answers of the
    `users` table. Password hashing, password verification and token
    encoding are external functions; a token is represented by the claims
    and expiry it is created from. */
module Auth {
  import opened Common

  /** A registration request. */
  datatype UserCreate = UserCreate(email: string, username: string, fullName: Option<string>, password: string)

  /** The row a registration inserts. */
  datatype NewUser = NewUser(
    email: string, username: string, fullName: Option<string>, hashedPassword: string, isActive: bool)

  /** A `users` row. `isActive` is read with `.get("is_active", True)`. */
  datatype StoredUser = StoredUser(
    id: string, email: string, username: string, fullName: Option<string>,
    hashedPassword: string, isActive: Field<bool>)

  /** The lookups on the `users` table: by email, by username, and the
      login's `username.eq.X,email.eq.X` alternative. */
  datatype UserQuery = EmailIs(email: string) | UsernameIs(username: string) | UsernameOrEmail(login: string)

  /** An HTTP error, or the authentication exception (with its message). */
  datatype AuthError = HttpError(code: nat, detail: string) | AuthenticationFailed(message: string)

  /** The outcome of a registration: the response and the row inserted, if any. */
  datatype Registration = Registration(result: Result<StoredUser, AuthError>, inserted: Option<NewUser>)

  const LoginTokenMinutes: nat := 30

  /** The claims and lifetime of an access token; `tokenType` is the
      response's `token_type`. */
  datatype AccessToken = AccessToken(sub: string, username: string, expiresMinutes: nat, tokenType: string)

  const InvalidCredentials := "Invalid username/email or password"

  /** `register`: a taken email is rejected first, then a taken username;
      only then is an active user with the hashed password inserted. */
  function Register(data: UserCreate, users: UserQuery -> Outcome<seq<StoredUser>>, hash: string -> string,
                    insert: NewUser -> Outcome<seq<StoredUser>>)
    : (g: Registration)
    ensures g.inserted.Some? <==>
      users(EmailIs(data.email)) == Answer([]) && users(UsernameIs(data.username)) == Answer([])
    ensures g.inserted.Some? ==>
      g.inserted.value == NewUser(data.email, data.username, data.fullName, hash(data.password), true)
    ensures users(EmailIs(data.email)).Answer? && users(EmailIs(data.email)).value != [] ==>
      g.result == Err(HttpError(BadRequest, "Email already registered"))
    ensures users(EmailIs(data.email)) == Answer([])
            && users(UsernameIs(data.username)).Answer? && users(UsernameIs(data.username)).value != [] ==>
      g.result == Err(HttpError(BadRequest, "Username already taken"))
    ensures g.result.Ok? <==>
      g.inserted.Some? && insert(g.inserted.value).Answer? && insert(g.inserted.value).value != []
    ensures g.result.Ok? ==> g.result.value == insert(g.inserted.value).value[0]
    ensures g.inserted.Some? && insert(g.inserted.value) == Answer([]) ==>
      g.result == Err(HttpError(InternalServerError, "Failed to create user"))
    ensures g.result.Err? ==> g.result.error.HttpError?
    // a raising lookup or insert is the generic registration failure
    ensures users(EmailIs(data.email)).Raises? ==>
      g == Registration(Err(HttpError(InternalServerError, "Registration failed")), None)
    ensures users(EmailIs(data.email)) == Answer([]) && users(UsernameIs(data.username)).Raises? ==>
      g == Registration(Err(HttpError(InternalServerError, "Registration failed")), None)
    ensures g.inserted.Some? && insert(g.inserted.value).Raises? ==>
      g.result == Err(HttpError(InternalServerError, "Registration failed"))
  {
    match users(EmailIs(data.email))
    case Raises(_) => Registration(Err(HttpError(InternalServerError, "Registration failed")), None)
    case Answer(byEmail) =>
      if byEmail != [] then Registration(Err(HttpError(BadRequest, "Email already registered")), None)
      else match users(UsernameIs(data.username))
        case Raises(_) => Registration(Err(HttpError(InternalServerError, "Registration failed")), None)
        case Answer(byName) =>
          if byName != [] then Registration(Err(HttpError(BadRequest, "Username already taken")), None)
          else
            var row := NewUser(data.email, data.username, data.fullName, hash(data.password), true);
            match insert(row)
            case Raises(_) => Registration(Err(HttpError(InternalServerError, "Registration failed")), Some(row))
            case Answer(created) =>
              if created == [] then Registration(Err(HttpError(InternalServerError, "Failed to create user")), Some(row))
              else Registration(Ok(created[0]), Some(row))
  }

  /** A taken email wins over a taken username, whatever the username
      lookup answers. */
  lemma EmailCheckedBeforeUsername(
    data: UserCreate, users: UserQuery -> Outcome<seq<StoredUser>>, other: UserQuery -> Outcome<seq<StoredUser>>,
    hash: string -> string, insert: NewUser -> Outcome<seq<StoredUser>>)
    requires users(EmailIs(data.email)) == other(EmailIs(data.email))
    requires users(EmailIs(data.email)).Answer? && users(EmailIs(data.email)).value != []
    ensures Register(data, users, hash, insert) == Register(data, other, hash, insert)
    ensures Register(data, users, hash, insert).inserted == None
  {
  }

  /** `user.get("is_active", True)` taken as a truth value. */
  predicate IsActive(u: StoredUser) {
    Truthy(u.isActive.Get(true))
  }

  /** `login`: the first row matching the login name or email, then the
      password, then the active flag; any other failure becomes the
      generic "Login failed". */
  function Login(
    login: string, password: string,
    users: UserQuery -> Outcome<seq<StoredUser>>,
    verify: (string, string) -> bool)
    : (r: Result<AccessToken, AuthError>)
    ensures var found := users(UsernameOrEmail(login));
            && (r.Ok? <==>
                  found.Answer? && found.value != []
                  && verify(password, found.value[0].hashedPassword) && IsActive(found.value[0]))
            && (r.Ok? ==>
                  r.value == AccessToken(found.value[0].id, found.value[0].username, LoginTokenMinutes, "bearer"))
            && (found.Raises? ==> r == Err(AuthenticationFailed("Login failed")))
            && (found == Answer([]) ==> r == Err(AuthenticationFailed(InvalidCredentials)))
    ensures r.Err? ==>
      r.error in {AuthenticationFailed(InvalidCredentials), AuthenticationFailed("Account is disabled"),
                  AuthenticationFailed("Login failed")}
  {
    match users(UsernameOrEmail(login))
    case Raises(_) => Err(AuthenticationFailed("Login failed"))
    case Answer(rows) =>
      if rows == [] then Err(AuthenticationFailed(InvalidCredentials))
      else
        var user := rows[0];
        if !verify(password, user.hashedPassword) then Err(AuthenticationFailed(InvalidCredentials))
        else if !IsActive(user) then Err(AuthenticationFailed("Account is disabled"))
        else Ok(AccessToken(user.id, user.username, LoginTokenMinutes, "bearer"))
  }

  /** An unknown login name and a wrong password for a known one are
      indistinguishable to the caller. */
  lemma UnknownUserLooksLikeWrongPassword(
    login: string, password: string,
    unknown: UserQuery -> Outcome<seq<StoredUser>>,
    known: UserQuery -> Outcome<seq<StoredUser>>,
    verify: (string, string) -> bool)
    requires unknown(UsernameOrEmail(login)) == Answer([])
    requires known(UsernameOrEmail(login)).Answer? && known(UsernameOrEmail(login)).value != []
    requires !verify(password, known(UsernameOrEmail(login)).value[0].hashedPassword)
    ensures Login(login, password, unknown, verify) == Login(login, password, known, verify)
            == Err(AuthenticationFailed(InvalidCredentials))
  {
  }

  /** The active flag is consulted only after the password is verified: a
      disabled account is reported only to a caller who knows its password.
      A missing flag counts as active, a `None` flag as inactive. */
  lemma ActiveCheckFollowsPassword(
    login: string, password: string,
    users: UserQuery -> Outcome<seq<StoredUser>>,
    verify: (string, string) -> bool)
    requires users(UsernameOrEmail(login)).Answer? && users(UsernameOrEmail(login)).value != []
    ensures var user := users(UsernameOrEmail(login)).value[0];
            var r := Login(login, password, users, verify);
            && (r == Err(AuthenticationFailed("Account is disabled")) <==>
                  verify(password, user.hashedPassword) && !IsActive(user))
            && (user.isActive == Absent ==> IsActive(user))
            && (user.isActive == Null ==> !IsActive(user))
  {
  }
}
