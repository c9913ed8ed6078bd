/**
 * Properties of the user registry that relate registration to the calls
 * that follow it.
 */
module AuthProperties {
  import opened Wrappers
  import opened Text
  import opened Models
  import opened Database
  import opened Http
  import opened AuthController

  /** Registration keeps the tables valid: the next id, a fresh email, one leaderboard row for the new user. */
  lemma RegisterKeepsValid(d: Tables, firstName: string, lastName: string, email: string, password: string, hashed: string)
    requires Valid(d)
    ensures Valid(RegisterStep(d, firstName, lastName, email, password, hashed).db)
  {
    var st := RegisterStep(d, firstName, lastName, email, password, hashed);
    if st.resp.status == 201 {
      var u := NewUser(d, firstName, lastName, email, hashed);
      assert forall i :: 0 <= i < |d.users| ==> st.db.users[i] == d.users[i];
      assert st.db.users[|d.users|] == u;
      assert forall i :: 0 <= i < |d.leaderboard| ==> st.db.leaderboard[i] == d.leaderboard[i];
      assert st.db.leaderboard[|d.leaderboard|].userId == |d.users| + 1;
    }
  }

  /**
   * Once an email is registered, registering it again in any letter case
   * is refused with 400, because the stored email and the check are both
   * lower-cased.
   */
  lemma RegisteredEmailRefusedInAnyCase(d: Tables, firstName: string, lastName: string, email: string, password: string,
                                        hashed: string, firstName': string, lastName': string, email': string,
                                        password': string, hashed': string)
    requires RegisterStep(d, firstName, lastName, email, password, hashed).resp.status == 201
    requires !MissingField(firstName', lastName', email', password')
    requires Lower(email') == Lower(email)
    ensures var d1 := RegisterStep(d, firstName, lastName, email, password, hashed).db;
            RegisterStep(d1, firstName', lastName', email', password', hashed') == Step(d1, Response(400, Error(EmailInUseMsg)))
  {
    var d1 := RegisterStep(d, firstName, lastName, email, password, hashed).db;
    assert d1.users[|d.users|].email == Lower(email');
  }

  /** A user who has just registered has a profile under the new id with the full name and 0 points. */
  lemma NewUserProfile(d: Tables, firstName: string, lastName: string, email: string, password: string, hashed: string)
    requires Valid(d)
    requires RegisterStep(d, firstName, lastName, email, password, hashed).resp.status == 201
    ensures var d1 := RegisterStep(d, firstName, lastName, email, password, hashed).db;
            GetUserData(d1, |d.users| + 1) == Response(200, Profile(firstName + " " + lastName, 0))
  {
    var d1 := RegisterStep(d, firstName, lastName, email, password, hashed).db;
    var u := NewUser(d, firstName, lastName, email, hashed);
    var id := |d.users| + 1;
    FindFirstAppend(d.users, u, (x: User) => x.id == id);
    assert FindFirst(d.users, (x: User) => x.id == id).None?;
    var row := LeaderboardRow(id, 0);
    FindFirstAppend(d.leaderboard, row, (x: LeaderboardRow) => x.userId == id);
    assert FindFirst(d.leaderboard, (x: LeaderboardRow) => x.userId == id).None?;
  }

  /**
   * A user who has just registered can log in with the same password and
   * the email in any letter case, and receives tokens for the new account.
   */
  lemma NewUserCanLogIn(d: Tables, firstName: string, lastName: string, email: string, password: string, hashed: string,
                        email': string, passwordMatches: (string, string) -> bool)
    requires RegisterStep(d, firstName, lastName, email, password, hashed).resp.status == 201
    requires passwordMatches(password, hashed)
    requires Lower(email') == Lower(email)
    ensures var d1 := RegisterStep(d, firstName, lastName, email, password, hashed).db;
            var u := NewUser(d, firstName, lastName, email, hashed);
            LoginUser(d1, Some(email'), Some(password), passwordMatches) == Response(200, Tokens(GenerateTokens(u).0, GenerateTokens(u).1))
  {
    var u := NewUser(d, firstName, lastName, email, hashed);
    FindFirstAppend(d.users, u, (x: User) => x.email == Lower(email'));
    assert FindFirst(d.users, (x: User) => x.email == Lower(email')).None?;
  }

  /**
   * The email exactly as registration stored it, already lower-cased, logs
   * the new user in: lower-casing it again at login changes nothing.
   */
  lemma StoredEmailLogsIn(d: Tables, firstName: string, lastName: string, email: string, password: string, hashed: string,
                          passwordMatches: (string, string) -> bool)
    requires RegisterStep(d, firstName, lastName, email, password, hashed).resp.status == 201
    requires passwordMatches(password, hashed)
    ensures var d1 := RegisterStep(d, firstName, lastName, email, password, hashed).db;
            var u := NewUser(d, firstName, lastName, email, hashed);
            |d1.users| == |d.users| + 1 &&
            LoginUser(d1, Some(d1.users[|d.users|].email), Some(password), passwordMatches)
              == Response(200, Tokens(GenerateTokens(u).0, GenerateTokens(u).1))
  {
    NewUserCanLogIn(d, firstName, lastName, email, password, hashed, Lower(email), passwordMatches);
  }

  /** Login finds the account whatever the letter case of the email typed. */
  lemma LoginIgnoresEmailCase(d: Tables, email: string, email': string, password: Option<string>,
                              passwordMatches: (string, string) -> bool)
    requires Lower(email') == Lower(email)
    ensures LoginUser(d, Some(email'), password, passwordMatches) == LoginUser(d, Some(email), password, passwordMatches)
  {
  }
}
