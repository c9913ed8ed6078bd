/**
 * The persistence layer as the controllers see it: the tables, Sequelize's
 * findOne (the first row in table order that satisfies the where clause),
 * and a Store object whose fields are the tables and whose methods are the
 * create/save calls the controllers make.
 */
module Database {
  import opened Wrappers
  import opened Models

  /** A progress row is found by (user_id, location_id). */
  type ProgressKey = (UserId, LocationId)

  /** All tables, as one value. */
  datatype Tables = Tables(
    users: seq<User>,
    locations: seq<Location>,
    challenges: seq<Challenge>,
    hints: seq<Hint>,
    progress: map<ProgressKey, Progress>,
    tokens: map<string, AccessToken>,
    leaderboard: seq<LeaderboardRow>,
    history: seq<HistoryRecord>)

  /** findOne: the position of the first row that matches, if any. */
  function FindFirst<T>(rows: seq<T>, matches: T -> bool): (r: Option<nat>)
    ensures r.Some? ==> r.value < |rows| && matches(rows[r.value])
    ensures r.Some? ==> forall j :: 0 <= j < r.value ==> !matches(rows[j])
    ensures r.None? ==> forall j :: 0 <= j < |rows| ==> !matches(rows[j])
  {
    if rows == [] then None
    else if matches(rows[0]) then Some(0)
    else match FindFirst(rows[1..], matches)
      case None => None
      case Some(k) => Some(k + 1)
  }

  /** findOne depends only on which rows match: two tables that match at the same positions give the same answer. */
  lemma FindFirstSamePattern<T, U>(s: seq<T>, p: T -> bool, t: seq<U>, q: U -> bool)
    requires |s| == |t|
    requires forall i :: 0 <= i < |s| ==> p(s[i]) == q(t[i])
    ensures FindFirst(s, p) == FindFirst(t, q)
  {
    var a, b := FindFirst(s, p), FindFirst(t, q);
    if a.Some? { assert q(t[a.value]); }
    if b.Some? { assert p(s[b.value]); }
  }

  /** Inserting a row at the end of a table only matters to findOne when no earlier row matches. */
  lemma {:induction false} FindFirstAppend<T>(s: seq<T>, x: T, p: T -> bool)
    ensures FindFirst(s + [x], p) ==
            if FindFirst(s, p).Some? then FindFirst(s, p)
            else if p(x) then Some(|s|) else None
    decreases |s|
  {
    var t := s + [x];
    if s == [] {
      assert t[1..] == [];
    } else {
      assert t[0] == s[0];
      assert t[1..] == s[1..] + [x];
      FindFirstAppend(s[1..], x, p);
    }
  }

  /** CustomUser.findByPk. */
  function FindUserById(users: seq<User>, id: UserId): (r: Option<User>)
    ensures r.None? <==> forall i :: 0 <= i < |users| ==> users[i].id != id
    ensures r.Some? ==> r.value in users && r.value.id == id
  {
    match FindFirst(users, (u: User) => u.id == id)
    case None => None
    case Some(i) => Some(users[i])
  }

  /** CustomUser.findOne({ where: { email } }), an exact comparison. */
  function FindUserByEmail(users: seq<User>, email: string): (r: Option<User>)
    ensures r.None? <==> forall i :: 0 <= i < |users| ==> users[i].email != email
    ensures r.Some? ==> r.value in users && r.value.email == email
  {
    match FindFirst(users, (u: User) => u.email == email)
    case None => None
    case Some(i) => Some(users[i])
  }

  /** Location.findOne({ where: { qr_code } }). */
  function FindLocationByQr(locations: seq<Location>, qrCode: string): (r: Option<Location>)
    ensures r.None? <==> forall i :: 0 <= i < |locations| ==> locations[i].qrCode != qrCode
    ensures r.Some? ==> r.value in locations && r.value.qrCode == qrCode
  {
    match FindFirst(locations, (l: Location) => l.qrCode == qrCode)
    case None => None
    case Some(i) => Some(locations[i])
  }

  /** Challenge.findOne({ where: { location_id } }). */
  function FindChallenge(challenges: seq<Challenge>, locationId: LocationId): (r: Option<Challenge>)
    ensures r.None? <==> forall i :: 0 <= i < |challenges| ==> challenges[i].locationId != locationId
    ensures r.Some? ==> r.value in challenges && r.value.locationId == locationId
  {
    match FindFirst(challenges, (c: Challenge) => c.locationId == locationId)
    case None => None
    case Some(i) => Some(challenges[i])
  }

  /** Hint.findOne({ where: { location_id, order } }). */
  function FindHint(hints: seq<Hint>, locationId: LocationId, order: int): (r: Option<Hint>)
    ensures r.None? <==> forall i :: 0 <= i < |hints| ==> hints[i].locationId != locationId || hints[i].order != order
    ensures r.Some? ==> r.value in hints && r.value.locationId == locationId && r.value.order == order
  {
    match FindFirst(hints, (h: Hint) => h.locationId == locationId && h.order == order)
    case None => None
    case Some(i) => Some(hints[i])
  }

  /** Leaderboard.findOne({ where: { user_id } }), as a position so the row can be saved back. */
  function FindLeaderboardRow(rows: seq<LeaderboardRow>, userId: UserId): Option<nat> {
    FindFirst(rows, (row: LeaderboardRow) => row.userId == userId)
  }

  /** A user's leaderboard total, 0 when the user has no row. */
  function PointsOf(rows: seq<LeaderboardRow>, userId: UserId): int {
    match FindLeaderboardRow(rows, userId)
    case None => 0
    case Some(i) => rows[i].totalPoints
  }

  /**
   * Find the user's leaderboard row and add to its total, or create the row
   * with that total: the user's points grow by exactly `points` and nobody
   * else's change.
   */
  function AddPoints(rows: seq<LeaderboardRow>, userId: UserId, points: int): (r: seq<LeaderboardRow>)
    ensures PointsOf(r, userId) == PointsOf(rows, userId) + points
    ensures forall v :: v != userId ==> PointsOf(r, v) == PointsOf(rows, v)
    ensures |r| == if FindLeaderboardRow(rows, userId).Some? then |rows| else |rows| + 1
    // only the user's own row changes, in place, or a row for the user is appended at the end
    ensures FindLeaderboardRow(rows, userId).None? ==> r == rows + [LeaderboardRow(userId, points)]
    ensures FindLeaderboardRow(rows, userId).Some? ==>
              var k := FindLeaderboardRow(rows, userId).value;
              k < |rows| && r == rows[k := rows[k].(totalPoints := rows[k].totalPoints + points)]
  {
    match FindLeaderboardRow(rows, userId)
    case None =>
      var r := rows + [LeaderboardRow(userId, points)];
      forall v ensures FindLeaderboardRow(r, v) ==
        (if FindLeaderboardRow(rows, v).Some? then FindLeaderboardRow(rows, v)
         else if v == userId then Some(|rows|) else None)
      {
        FindFirstAppend(rows, LeaderboardRow(userId, points), (row: LeaderboardRow) => row.userId == v);
      }
      r
    case Some(i) =>
      var r := rows[i := rows[i].(totalPoints := rows[i].totalPoints + points)];
      forall v ensures FindLeaderboardRow(r, v) == FindLeaderboardRow(rows, v) {
        FindFirstSamePattern(r, (row: LeaderboardRow) => row.userId == v, rows, (row: LeaderboardRow) => row.userId == v);
      }
      r
  }

  /**
   * What every reachable state satisfies: user ids are assigned 1, 2, ...
   * in order of registration, emails are unique, every leaderboard row
   * belongs to a registered user and no user has two rows, and every
   * progress row has its hint cursor at 1 or beyond and a completion time
   * once completed.
   */
  ghost predicate Valid(t: Tables) {
    && (forall i :: 0 <= i < |t.users| ==> t.users[i].id == i + 1)
    && (forall i, j :: 0 <= i < j < |t.users| ==> t.users[i].email != t.users[j].email)
    && (forall i :: 0 <= i < |t.leaderboard| ==> 1 <= t.leaderboard[i].userId <= |t.users|)
    && (forall i, j :: 0 <= i < j < |t.leaderboard| ==> t.leaderboard[i].userId != t.leaderboard[j].userId)
    && (forall k :: k in t.progress ==> t.progress[k].currentHint >= DefaultCurrentHint)
    && (forall k :: k in t.progress && t.progress[k].completed ==> t.progress[k].completedAt.Some?)
  }

  /** A registered user, as the auth middleware guarantees for the id it puts on the request. */
  predicate IsRegistered(t: Tables, userId: UserId) {
    1 <= userId <= |t.users|
  }

  /** The database: one field per table, changed only through the create/save calls below. */
  class Store {
    var users: seq<User>
    var locations: seq<Location>
    var challenges: seq<Challenge>
    var hints: seq<Hint>
    var progress: map<ProgressKey, Progress>
    var tokens: map<string, AccessToken>
    var leaderboard: seq<LeaderboardRow>
    var history: seq<HistoryRecord>

    /** The current contents of all tables. */
    function Snapshot(): Tables
      reads this
    {
      Tables(users, locations, challenges, hints, progress, tokens, leaderboard, history)
    }

    /** A database seeded with the game's locations, challenges and hints, before anyone registers. */
    constructor (locations: seq<Location>, challenges: seq<Challenge>, hints: seq<Hint>)
      ensures Snapshot() == Tables([], locations, challenges, hints, map[], map[], [], [])
      ensures Valid(Snapshot())
    {
      this.users := [];
      this.locations := locations;
      this.challenges := challenges;
      this.hints := hints;
      this.progress := map[];
      this.tokens := map[];
      this.leaderboard := [];
      this.history := [];
    }

    /** QRAccessToken.create; the token column is unique. */
    method CreateToken(value: string, t: AccessToken)
      requires value !in tokens
      modifies this
      ensures Snapshot() == old(Snapshot()).(tokens := old(tokens)[value := t])
    {
      tokens := tokens[value := t];
    }

    /** UserProgress.create, or userProgress.save on the row found by (user, location). */
    method SaveProgress(key: ProgressKey, p: Progress)
      modifies this
      ensures Snapshot() == old(Snapshot()).(progress := old(progress)[key := p])
    {
      progress := progress[key := p];
    }

    /** Leaderboard.create. */
    method CreateLeaderboardRow(row: LeaderboardRow)
      modifies this
      ensures Snapshot() == old(Snapshot()).(leaderboard := old(leaderboard) + [row])
    {
      leaderboard := leaderboard + [row];
    }

    /** leaderboard.save on the row at position i. */
    method SaveLeaderboardRow(i: nat, row: LeaderboardRow)
      requires i < |leaderboard|
      modifies this
      ensures Snapshot() == old(Snapshot()).(leaderboard := old(leaderboard)[i := row])
    {
      leaderboard := leaderboard[i := row];
    }

    /** ParticipationHistory.create. */
    method CreateHistory(h: HistoryRecord)
      modifies this
      ensures Snapshot() == old(Snapshot()).(history := old(history) + [h])
    {
      history := history + [h];
    }

    /** CustomUser.create; the id is the next auto-increment value. */
    method CreateUser(email: string, password: string, firstName: string, lastName: string) returns (u: User)
      modifies this
      ensures u == User(|old(users)| + 1, email, password, firstName, lastName)
      ensures Snapshot() == old(Snapshot()).(users := old(users) + [u])
    {
      u := User(|users| + 1, email, password, firstName, lastName);
      users := users + [u];
    }
  }
}
