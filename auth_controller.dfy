/** The account handlers (server/controllers/auth.js): registration, password
    login and the redirect that ends a Google sign-in. Password hashing is
    abstract: `Bcrypt` carries `hash` and `compare` as function values, and
    the one law relied on (a password matches its own hash) is the predicate
    `Matches`, assumed only where needed. The random salt and the clock are
    parameters. */
module AuthController {
  import opened Common
  import opened Jwt
  import opened UserModel
  import opened Http

  datatype Bcrypt = Bcrypt(
    hash: (string, string) -> string,   // `bcrypt.hash(password, salt)`
    compare: (string, string) -> bool)  // `bcrypt.compare(password, stored)`

  ghost predicate Matches(bcrypt: Bcrypt)
  {
    forall password, salt {:trigger bcrypt.hash(password, salt)} ::
      bcrypt.compare(password, bcrypt.hash(password, salt))
  }

  datatype Outcome = Outcome(response: Response, users: seq<User>)

  const AllFieldsRequired: Response := Json(400, Message("All fields are required"))
  const UserExists: Response := Json(400, Message("User already exists"))
  const UserNotFound: Response := Json(404, Message("User not found"))
  const IncorrectCredentials: Response := Json(401, Message("Incorrect credentials"))

  predicate RegistrationComplete(body: Body)
  {
    Given(body, "fullname") && Given(body, "email") && Given(body, "password")
  }

  /** `register`: 400 for a missing field, 400 for a stored email, and
      otherwise one new user holding the hash of the password. */
  function Registration(users: seq<User>, body: Body, newId: ObjectId, salt: string, bcrypt: Bcrypt, now: int): (o: Outcome)
    ensures !RegistrationComplete(body) ==> o == Outcome(AllFieldsRequired, users)
    ensures RegistrationComplete(body) && FindByEmail(users, body["email"]).Some? ==> o == Outcome(UserExists, users)
    ensures StatusOf(o.response) == 201 <==>
              RegistrationComplete(body) && FindByEmail(users, body["email"]).None? && newId !in Ids(users)
    ensures StatusOf(o.response) != 201 ==> o.users == users
    ensures RegistrationComplete(body) && FindByEmail(users, body["email"]).None? && StatusOf(o.response) != 201 ==>
              o == Outcome(ServerError, users)
    ensures StatusOf(o.response) == 201 ==>
              && |o.users| == |users| + 1 && o.users[..|users|] == users
              && var u := o.users[|users|];
                 && u == User(newId, body["fullname"], body["email"], bcrypt.hash(body["password"], salt), None, now, now)
                 && o.response == Json(201, UserCreated(WithoutPassword(u)))
    ensures UniqueKeys(users) ==> UniqueKeys(o.users)
  {
    if !RegistrationComplete(body) then Outcome(AllFieldsRequired, users)
    else if FindByEmail(users, body["email"]).Some? then Outcome(UserExists, users)
    else if newId in Ids(users) then Outcome(ServerError, users)        // duplicate key
    else
      var u := User(newId, body["fullname"], body["email"], bcrypt.hash(body["password"], salt), None, now, now);
      assert UniqueKeys(users) ==> UniqueKeys(users + [u]) by {
        if UniqueKeys(users) { AppendKeepsKeysUnique(users, u); }
      }
      Outcome(Json(201, UserCreated(WithoutPassword(u))), users + [u])
  }

  /** `login`: 400 before any lookup, 404 for an unknown email, 401 for a
      wrong password, and otherwise a seven-day token signed over the user's
      id, with the user minus its password. */
  function LoginResponse(users: seq<User>, body: Body, bcrypt: Bcrypt, keys: Keys, secret: Option<string>, now: int): (r: Response)
    ensures !Given(body, "email") || !Given(body, "password") ==> r == AllFieldsRequired
    ensures Given(body, "email") && Given(body, "password") && FindByEmail(users, body["email"]).None? ==> r == UserNotFound
    ensures StatusOf(r) == 401 <==>
              && Given(body, "email") && Given(body, "password") && FindByEmail(users, body["email"]).Some?
              && !bcrypt.compare(body["password"], users[FindByEmail(users, body["email"]).value].password)
    ensures StatusOf(r) == 401 ==> r == IncorrectCredentials
    ensures StatusOf(r) == 404 <==>
              Given(body, "email") && Given(body, "password") && FindByEmail(users, body["email"]).None?
    ensures Given(body, "email") && Given(body, "password") && FindByEmail(users, body["email"]).Some? ==>
              var u := users[FindByEmail(users, body["email"]).value];
              bcrypt.compare(body["password"], u.password) ==>
                r == if Truthy(secret) then Json(200, LoggedIn(Sign(keys, secret, u.id, now).value, WithoutPassword(u)))
                     else ServerError
    ensures StatusOf(r) == 200 ==>
              && Given(body, "email") && Given(body, "password") && FindByEmail(users, body["email"]).Some?
              && var u := users[FindByEmail(users, body["email"]).value];
                 && u.email == body["email"]
                 && bcrypt.compare(body["password"], u.password)
                 && Sign(keys, secret, u.id, now).Some?
                 && r == Json(200, LoggedIn(Sign(keys, secret, u.id, now).value, WithoutPassword(u)))
  {
    if !Given(body, "email") || !Given(body, "password") then AllFieldsRequired
    else
      match FindByEmail(users, body["email"])
      case None => UserNotFound
      case Some(i) =>
        if !bcrypt.compare(body["password"], users[i].password) then IncorrectCredentials
        else
          match Sign(keys, secret, users[i].id, now)
          case None => ServerError                                       // no signing secret
          case Some(token) => Json(200, LoggedIn(token, WithoutPassword(users[i])))
  }

  const CallbackPath: string := "/auth/callback?token="
  const LoginFailedPath: string := "/login?error=auth_failed"

  /** `${process.env.FRONTEND_URL}`: an unset variable prints as "undefined". */
  function FrontendBase(frontendUrl: Option<string>): string
  {
    if frontendUrl.None? then "undefined" else frontendUrl.value
  }

  /** `googleAuthCallback`: a redirect to the front end carrying a token for
      the signed-in user, or to its login page when signing throws (no user,
      no secret). */
  function CallbackRedirect(frontendUrl: Option<string>, user: Option<User>, keys: Keys, secret: Option<string>, now: int): (r: Response)
    ensures r.Redirect?
    ensures user.Some? && Truthy(secret) ==>
              r.url == FrontendBase(frontendUrl) + CallbackPath + Sign(keys, secret, user.value.id, now).value
    ensures user.None? || !Truthy(secret) ==> r.url == FrontendBase(frontendUrl) + LoginFailedPath
  {
    if user.None? then Redirect(FrontendBase(frontendUrl) + LoginFailedPath)
    else
      match Sign(keys, secret, user.value.id, now)
      case None => Redirect(FrontendBase(frontendUrl) + LoginFailedPath)
      case Some(token) => Redirect(FrontendBase(frontendUrl) + CallbackPath + token)
  }

  /** The front end can read the token back: it is everything after the
      callback path, and a success redirect is never the failure redirect. */
  lemma CallbackCarriesToken(frontendUrl: Option<string>, user: User, keys: Keys, secret: Option<string>, now: int)
    requires Truthy(secret)
    ensures var r := CallbackRedirect(frontendUrl, Some(user), keys, secret, now);
            var prefix := FrontendBase(frontendUrl) + CallbackPath;
            && |prefix| <= |r.url| && r.url[..|prefix|] == prefix
            && r.url[|prefix|..] == Sign(keys, secret, user.id, now).value
            && r != CallbackRedirect(frontendUrl, None, keys, secret, now)
  {
    var base := FrontendBase(frontendUrl);
    var r := CallbackRedirect(frontendUrl, Some(user), keys, secret, now);
    var token := Sign(keys, secret, user.id, now).value;
    assert r.url == base + CallbackPath + token;
    assert r.url[|base| + 1] == 'a' && (base + LoginFailedPath)[|base| + 1] == 'l';
  }

  /** A registered user can log in with the same email and password, and
      receives a token that the gate accepts for seven days. */
  lemma {:induction false} RegisterThenLogin(users: seq<User>, body: Body, newId: ObjectId, salt: string,
                                             bcrypt: Bcrypt, keys: Keys, secret: Option<string>, now: int, later: int)
    requires Matches(bcrypt) && Truthy(secret)
    requires StatusOf(Registration(users, body, newId, salt, bcrypt, now).response) == 201
    ensures var stored := Registration(users, body, newId, salt, bcrypt, now).users;
            var u := stored[|users|];
            LoginResponse(stored, body, bcrypt, keys, secret, later)
              == Json(200, LoggedIn(Sign(keys, secret, newId, later).value, WithoutPassword(u)))
  {
    var stored := Registration(users, body, newId, salt, bcrypt, now).users;
    var u := stored[|users|];
    assert stored == users + [u];
    FindByEmailAfterAppend(users, u, body["email"]);
    assert bcrypt.compare(body["password"], bcrypt.hash(body["password"], salt));
  }

  /** Registering the same email twice: the second answers "User already
      exists" and stores nothing, whatever the password. */
  lemma {:induction false} RegisterTwice(users: seq<User>, body: Body, body2: Body, newId: ObjectId, newId2: ObjectId,
                                         salt: string, salt2: string, bcrypt: Bcrypt, now: int, later: int)
    requires StatusOf(Registration(users, body, newId, salt, bcrypt, now).response) == 201
    requires RegistrationComplete(body2) && body2["email"] == body["email"]
    ensures var stored := Registration(users, body, newId, salt, bcrypt, now).users;
            Registration(stored, body2, newId2, salt2, bcrypt, later) == Outcome(UserExists, stored)
  {
    var stored := Registration(users, body, newId, salt, bcrypt, now).users;
    assert stored == users + [stored[|users|]];
    FindByEmailAfterAppend(users, stored[|users|], body["email"]);
  }

  /** `register` on the User collection. */
  method Register(store: UserStore, req: Request, newId: ObjectId, salt: string, bcrypt: Bcrypt, now: int) returns (res: Response)
    requires store.Valid()
    modifies store
    ensures store.Valid()
    ensures Outcome(res, store.users) == Registration(old(store.users), req.body, newId, salt, bcrypt, now)
  {
    var body := req.body;
    if !Given(body, "fullname") || !Given(body, "email") || !Given(body, "password") {
      return AllFieldsRequired;
    }
    var existing := FindByEmail(store.users, body["email"]);
    if existing.Some? {
      return UserExists;
    }
    if newId in Ids(store.users) {
      return ServerError;
    }
    var hashed := bcrypt.hash(body["password"], salt);
    var saved := User(newId, body["fullname"], body["email"], hashed, None, now, now);
    AppendKeepsKeysUnique(store.users, saved);
    store.users := store.users + [saved];
    res := Json(201, UserCreated(WithoutPassword(saved)));
  }

  /** `login`: reads the User collection and never changes it. */
  method Login(store: UserStore, req: Request, bcrypt: Bcrypt, keys: Keys, secret: Option<string>, now: int) returns (res: Response)
    ensures res == LoginResponse(store.users, req.body, bcrypt, keys, secret, now)
  {
    var body := req.body;
    if !Given(body, "email") || !Given(body, "password") {
      return AllFieldsRequired;
    }
    var found := FindByEmail(store.users, body["email"]);
    if found.None? {
      return UserNotFound;
    }
    var user := store.users[found.value];
    if !bcrypt.compare(body["password"], user.password) {
      return IncorrectCredentials;
    }
    var token := Sign(keys, secret, user.id, now);
    if token.None? {
      return ServerError;
    }
    res := Json(200, LoggedIn(token.value, WithoutPassword(user)));
  }
}
