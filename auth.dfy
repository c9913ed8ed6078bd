/**
 * The user registry of server/controllers/authController.js.
 *
 * bcrypt is opaque: registration receives the hash bcrypt.hash produced
 * (`hashed`), and login receives bcrypt.compare as the function
 * `passwordMatches(plain, hash)`. jwt.sign is represented by the claims it
 * signs. Registration guards every field with `!field`, so there a missing
 * field and the empty string are both the empty string; login has no such
 * guard, and its fields are `Option` values.
 */
module AuthController {
  import opened Wrappers
  import opened Text
  import opened Models
  import opened Database
  import opened Http

  const FieldsRequiredMsg := "Todos los campos son obligatorios."
  const EmailInUseMsg := "El correo electrónico ya está en uso."
  const RegisteredMsg := "Usuario registrado correctamente."
  const BadCredentialsMsg := "Credenciales incorrectas."
  const UserNotFoundMsg := "Usuario no encontrado."

  /** Lifetimes of the two JWTs: '1h' and '7d'. */
  const AccessTokenTtl := 60 * 60
  const RefreshTokenTtl := 7 * 24 * 60 * 60

  /** generateTokens: an access and a refresh token, both carrying the user's id and email. */
  function GenerateTokens(u: User): (r: (Jwt, Jwt))
    ensures r.0.userId == u.id && r.0.email == u.email
    ensures r.1.userId == u.id && r.1.email == u.email
    // one hour, and seven days: the refresh token outlives the access token 168 times over
    ensures r.0.expiresInSeconds == 3600
    ensures r.1.expiresInSeconds == 168 * r.0.expiresInSeconds
  {
    (Jwt(u.id, u.email, AccessTokenTtl), Jwt(u.id, u.email, RefreshTokenTtl))
  }

  /** `!first_name || !last_name || !email || !password`. */
  predicate MissingField(firstName: string, lastName: string, email: string, password: string) {
    firstName == "" || lastName == "" || email == "" || password == ""
  }

  /** The user a successful registration creates: the next id, the email lower-cased. */
  function NewUser(d: Tables, firstName: string, lastName: string, email: string, hashed: string): User {
    User(|d.users| + 1, Lower(email), hashed, firstName, lastName)
  }

  /** POST /register. */
  function RegisterStep(d: Tables, firstName: string, lastName: string, email: string, password: string, hashed: string): (st: Step)
    ensures MissingField(firstName, lastName, email, password) ==> st == Step(d, Response(400, Error(FieldsRequiredMsg)))
    // the uniqueness check compares the lower-cased email
    ensures !MissingField(firstName, lastName, email, password)
              && (exists i :: 0 <= i < |d.users| && d.users[i].email == Lower(email)) ==>
              st == Step(d, Response(400, Error(EmailInUseMsg)))
    ensures st.resp.status != 201 ==> st.db == d
    ensures st.resp.status == 201 <==>
              !MissingField(firstName, lastName, email, password)
              && forall i :: 0 <= i < |d.users| ==> d.users[i].email != Lower(email)
    // success: one user row with the lower-cased email, one leaderboard row at 0 points, tokens for the new user
    ensures st.resp.status == 201 ==>
              var u := NewUser(d, firstName, lastName, email, hashed);
              && st.db.users == d.users + [u]
              && st.db.leaderboard == d.leaderboard + [LeaderboardRow(u.id, 0)]
              && st.db == d.(users := st.db.users, leaderboard := st.db.leaderboard)
              && st.resp.body == Registered(RegisteredMsg, GenerateTokens(u).0, GenerateTokens(u).1)
  {
    if MissingField(firstName, lastName, email, password) then
      Step(d, Response(400, Error(FieldsRequiredMsg)))
    else if FindUserByEmail(d.users, Lower(email)).Some? then
      Step(d, Response(400, Error(EmailInUseMsg)))
    else
      var u := NewUser(d, firstName, lastName, email, hashed);
      var (access, refresh) := GenerateTokens(u);
      Step(d.(users := d.users + [u], leaderboard := d.leaderboard + [LeaderboardRow(u.id, 0)]),
           Response(201, Registered(RegisteredMsg, access, refresh)))
  }

  method RegisterUser(store: Store, firstName: string, lastName: string, email: string, password: string, hashed: string)
    returns (r: Response)
    modifies store
    ensures Step(store.Snapshot(), r) == RegisterStep(old(store.Snapshot()), firstName, lastName, email, password, hashed)
  {
    if firstName == "" || lastName == "" || email == "" || password == "" {
      return Response(400, Error(FieldsRequiredMsg));
    }
    var existingUser := FindUserByEmail(store.users, Lower(email));
    if existingUser.Some? {
      return Response(400, Error(EmailInUseMsg));
    }
    var newUser := store.CreateUser(Lower(email), hashed, firstName, lastName);
    store.CreateLeaderboardRow(LeaderboardRow(newUser.id, 0));
    var (access, refresh) := GenerateTokens(newUser);
    return Response(201, Registered(RegisteredMsg, access, refresh));
  }

  /**
   * POST /login. An unknown email and a wrong password give the same 401.
   * A field missing from the request body is `None`: without an email,
   * `email.toLowerCase()` throws; without a password, `bcrypt.compare`
   * rejects; the handler answers 500 in both cases. The password is only
   * used once the email has found a user.
   */
  function LoginUser(d: Tables, email: Option<string>, password: Option<string>,
                     passwordMatches: (string, string) -> bool): (r: Response)
    ensures r.status == 200 || r == Response(401, Error(BadCredentialsMsg)) || r == Response(500, Error(InternalErrorMsg))
    ensures email.None? ==> r == Response(500, Error(InternalErrorMsg))
    ensures email.Some? && FindUserByEmail(d.users, Lower(email.value)).None? ==> r == Response(401, Error(BadCredentialsMsg))
    ensures email.Some? && FindUserByEmail(d.users, Lower(email.value)).Some? && password.None? ==>
              r == Response(500, Error(InternalErrorMsg))
    ensures && email.Some? && password.Some?
            && FindUserByEmail(d.users, Lower(email.value)).Some?
            && !passwordMatches(password.value, FindUserByEmail(d.users, Lower(email.value)).value.password)
            ==> r == Response(401, Error(BadCredentialsMsg))
    ensures r.status == 200 <==>
              && email.Some? && password.Some?
              && FindUserByEmail(d.users, Lower(email.value)).Some?
              && passwordMatches(password.value, FindUserByEmail(d.users, Lower(email.value)).value.password)
    ensures r.status == 200 ==>
              var u := FindUserByEmail(d.users, Lower(email.value)).value;
              u.email == Lower(email.value) && r.body == Tokens(GenerateTokens(u).0, GenerateTokens(u).1)
  {
    match email
    case None => Response(500, Error(InternalErrorMsg))
    case Some(e) =>
      match FindUserByEmail(d.users, Lower(e))
      case None => Response(401, Error(BadCredentialsMsg))
      case Some(u) =>
        match password
        case None => Response(500, Error(InternalErrorMsg))
        case Some(p) =>
          if !passwordMatches(p, u.password) then Response(401, Error(BadCredentialsMsg))
          else
            var (access, refresh) := GenerateTokens(u);
            Response(200, Tokens(access, refresh))
  }

  /** GET /user-data: the user's full name and leaderboard total, 0 without a row. */
  function GetUserData(d: Tables, userId: UserId): (r: Response)
    ensures r.status == 404 <==> forall i :: 0 <= i < |d.users| ==> d.users[i].id != userId
    ensures r.status == 404 ==> r.body == Error(UserNotFoundMsg)
    ensures r.status != 404 ==>
              var u := FindUserById(d.users, userId).value;
              && u in d.users && u.id == userId
              && r == Response(200, Profile(u.firstName + " " + u.lastName, PointsOf(d.leaderboard, userId)))
  {
    match FindUserById(d.users, userId)
    case None => Response(404, Error(UserNotFoundMsg))
    case Some(u) => Response(200, Profile(u.firstName + " " + u.lastName, PointsOf(d.leaderboard, u.id)))
  }
}
