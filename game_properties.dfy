/**
 * Properties of the game handlers that relate several calls, or hold of
 * every handler at once.
 */
module GameProperties {
  import opened Wrappers
  import opened Models
  import opened Database
  import opened Http
  import opened Ranking
  import opened GameController

  // ---------------------------------------------------------------------
  // The token gate
  // ---------------------------------------------------------------------

  /** A token-check failure, as opposed to any later outcome. */
  predicate IsTokenFailure(r: Response) {
    r == Response(404, Error(InvalidTokenMsg)) || r == Response(403, Error(TokenExpiredMsg))
  }

  /**
   * Every token-taking handler checks the token first and in the same order:
   * an unknown value is 404, then a clock strictly after the expiry is 403,
   * and neither failure writes anything. At the expiry instant itself the
   * token still passes.
   */
  lemma TokenCheckedFirst(d: Tables, userId: UserId, token: string, answer: string, now: int)
    ensures token !in d.tokens ==>
              var r := Response(404, Error(InvalidTokenMsg));
              && GetChallenge(d, userId, token, now) == r
              && ValidateStep(d, userId, token, answer, now) == Step(d, r)
              && UpdateStep(d, userId, token, now) == Step(d, r)
              && NextHintStep(d, userId, token, now) == Step(d, r)
    ensures token in d.tokens && now > d.tokens[token].expiresAt ==>
              var r := Response(403, Error(TokenExpiredMsg));
              && GetChallenge(d, userId, token, now) == r
              && ValidateStep(d, userId, token, answer, now) == Step(d, r)
              && UpdateStep(d, userId, token, now) == Step(d, r)
              && NextHintStep(d, userId, token, now) == Step(d, r)
    ensures token in d.tokens && now <= d.tokens[token].expiresAt ==>
              && !IsTokenFailure(GetChallenge(d, userId, token, now))
              && !IsTokenFailure(ValidateStep(d, userId, token, answer, now).resp)
              && !IsTokenFailure(UpdateStep(d, userId, token, now).resp)
              && !IsTokenFailure(NextHintStep(d, userId, token, now).resp)
  {
  }

  /**
   * The token's own user is never compared with the requesting user: giving
   * the token to someone else changes no handler's answer and no table
   * other than the token itself. Progress is always keyed by the requesting
   * user and the token's location.
   */
  lemma TokenOwnerNeverCompared(d: Tables, token: string, owner: UserId, userId: UserId, answer: string, now: int)
    requires token in d.tokens
    ensures var d' := Reassigned(d, token, owner);
            && GetChallenge(d', userId, token, now) == GetChallenge(d, userId, token, now)
            && ValidateStep(d', userId, token, answer, now).resp == ValidateStep(d, userId, token, answer, now).resp
            && ValidateStep(d', userId, token, answer, now).db.(tokens := d.tokens) == ValidateStep(d, userId, token, answer, now).db
            && UpdateStep(d', userId, token, now).resp == UpdateStep(d, userId, token, now).resp
            && UpdateStep(d', userId, token, now).db.(tokens := d.tokens) == UpdateStep(d, userId, token, now).db
            && NextHintStep(d', userId, token, now).resp == NextHintStep(d, userId, token, now).resp
            && NextHintStep(d', userId, token, now).db.(tokens := d.tokens) == NextHintStep(d, userId, token, now).db
  {
    OwnerIgnoredByValidate(d, token, owner, userId, answer, now);
    OwnerIgnoredByUpdate(d, token, owner, userId, now);
    OwnerIgnoredByNextHint(d, token, owner, userId, now);
  }

  /** The tables with the token handed to another user. */
  function Reassigned(d: Tables, token: string, owner: UserId): (d': Tables)
    requires token in d.tokens
    ensures token in d'.tokens && d'.tokens[token].locationId == d.tokens[token].locationId
    ensures d'.tokens[token].expiresAt == d.tokens[token].expiresAt
    ensures d'.(tokens := d.tokens) == d
  {
    d.(tokens := d.tokens[token := d.tokens[token].(userId := owner)])
  }

  lemma OwnerIgnoredByValidate(d: Tables, token: string, owner: UserId, userId: UserId, answer: string, now: int)
    requires token in d.tokens
    ensures var d' := Reassigned(d, token, owner);
            && ValidateStep(d', userId, token, answer, now).resp == ValidateStep(d, userId, token, answer, now).resp
            && ValidateStep(d', userId, token, answer, now).db.(tokens := d.tokens) == ValidateStep(d, userId, token, answer, now).db
  {
  }

  lemma OwnerIgnoredByUpdate(d: Tables, token: string, owner: UserId, userId: UserId, now: int)
    requires token in d.tokens
    ensures var d' := Reassigned(d, token, owner);
            && UpdateStep(d', userId, token, now).resp == UpdateStep(d, userId, token, now).resp
            && UpdateStep(d', userId, token, now).db.(tokens := d.tokens) == UpdateStep(d, userId, token, now).db
  {
  }

  lemma OwnerIgnoredByNextHint(d: Tables, token: string, owner: UserId, userId: UserId, now: int)
    requires token in d.tokens
    ensures var d' := Reassigned(d, token, owner);
            && NextHintStep(d', userId, token, now).resp == NextHintStep(d, userId, token, now).resp
            && NextHintStep(d', userId, token, now).db.(tokens := d.tokens) == NextHintStep(d, userId, token, now).db
  {
  }

  // ---------------------------------------------------------------------
  // Scanning and then using the token
  // ---------------------------------------------------------------------

  /**
   * The token a successful scan returns opens the location's challenge for
   * fifteen minutes and is refused as expired from the next millisecond on.
   */
  lemma ScannedTokenOpensChallenge(d: Tables, userId: UserId, qrCode: string, now: int, tokenValue: string, later: int)
    requires tokenValue !in d.tokens
    requires ScanStep(d, userId, qrCode, now, tokenValue).resp.status == 200
    ensures var s := ScanStep(d, userId, qrCode, now, tokenValue);
            var loc := ScannedLocation(d, qrCode).value;
            && (later <= now + TokenLifetimeMs && FindChallenge(d.challenges, loc.id).Some? ==>
                  var c := FindChallenge(d.challenges, loc.id).value;
                  GetChallenge(s.db, userId, tokenValue, later) == Response(200, ChallengeView(c.question, c.points, c.options)))
            && (later <= now + TokenLifetimeMs && FindChallenge(d.challenges, loc.id).None? ==>
                  GetChallenge(s.db, userId, tokenValue, later) == Response(404, Notice(NoChallengeHereMsg)))
            && (later > now + TokenLifetimeMs ==>
                  GetChallenge(s.db, userId, tokenValue, later) == Response(403, Error(TokenExpiredMsg)))
  {
    var s := ScanStep(d, userId, qrCode, now, tokenValue);
    var loc := ScannedLocation(d, qrCode).value;
    assert s.db.tokens[tokenValue] == AccessToken(userId, loc.id, now + TokenLifetimeMs);
    assert (userId, loc.id) in s.db.progress && !s.db.progress[(userId, loc.id)].completed;
  }

  /** Once a location is completed, scanning its QR code again is refused with 403 and writes nothing. */
  lemma CompletedLocationRefusesScan(d: Tables, userId: UserId, token: string, answer: string, now: int,
                                     qrCode: string, later: int, tokenValue: string)
    requires ValidateStep(d, userId, token, answer, now).resp.body.Answer?
    requires ValidateStep(d, userId, token, answer, now).resp.body.correct
    requires ScannedLocation(d, qrCode).Some? && ScannedLocation(d, qrCode).value.id == d.tokens[token].locationId
    requires tokenValue !in d.tokens
    ensures var s := ValidateStep(d, userId, token, answer, now);
            ScanStep(s.db, userId, qrCode, later, tokenValue) == Step(s.db, Response(403, Error(ScanCompletedMsg)))
  {
    var s := ValidateStep(d, userId, token, answer, now);
    assert s.db.locations == d.locations && s.db.tokens == d.tokens;
    assert ScannedLocation(s.db, qrCode) == ScannedLocation(d, qrCode);
  }

  // ---------------------------------------------------------------------
  // Points
  // ---------------------------------------------------------------------

  /** The tables after n calls of updateUserProgress with the same token at the same instant. */
  function UpdateRepeatedly(d: Tables, userId: UserId, token: string, now: int, n: nat): Tables
    decreases n
  {
    if n == 0 then d else UpdateRepeatedly(UpdateStep(d, userId, token, now).db, userId, token, now, n - 1)
  }

  /**
   * updateUserProgress is not idempotent: n calls add n times the
   * challenge's points to the progress row and to the leaderboard, and
   * append n history records.
   */
  lemma {:induction false} RepeatedUpdatesAccumulate(d: Tables, userId: UserId, token: string, now: int, n: nat)
    requires TokenLive(d.tokens, token, now)
    requires FindChallenge(d.challenges, d.tokens[token].locationId).Some?
    ensures var key := (userId, d.tokens[token].locationId);
            var points := FindChallenge(d.challenges, d.tokens[token].locationId).value.points;
            var e := UpdateRepeatedly(d, userId, token, now, n);
            && e.tokens == d.tokens && e.challenges == d.challenges
            && ProgressPoints(e.progress, key) == ProgressPoints(d.progress, key) + n * points
            && PointsOf(e.leaderboard, userId) == PointsOf(d.leaderboard, userId) + n * points
            && |e.history| == |d.history| + n
    decreases n
  {
    if n > 0 {
      var key := (userId, d.tokens[token].locationId);
      var points := FindChallenge(d.challenges, d.tokens[token].locationId).value.points;
      var d1 := UpdateStep(d, userId, token, now).db;
      UpdateOnce(d, userId, token, now);
      RepeatedUpdatesAccumulate(d1, userId, token, now, n - 1);
      var e := UpdateRepeatedly(d1, userId, token, now, n - 1);
      OneMore(ProgressPoints(d.progress, key), ProgressPoints(d1.progress, key), ProgressPoints(e.progress, key), points, n);
      OneMore(PointsOf(d.leaderboard, userId), PointsOf(d1.leaderboard, userId), PointsOf(e.leaderboard, userId), points, n);
    }
  }

  /** A total raised once by `points` and then n - 1 more times is raised n times. */
  lemma OneMore(before: int, once: int, after: int, points: int, n: nat)
    requires n > 0
    requires once == before + points
    requires after == once + (n - 1) * points
    ensures after == before + n * points
  {
  }

  /** One successful commit, reduced to what the repetition needs. */
  lemma UpdateOnce(d: Tables, userId: UserId, token: string, now: int)
    requires TokenLive(d.tokens, token, now)
    requires FindChallenge(d.challenges, d.tokens[token].locationId).Some?
    ensures var key := (userId, d.tokens[token].locationId);
            var points := FindChallenge(d.challenges, d.tokens[token].locationId).value.points;
            var d1 := UpdateStep(d, userId, token, now).db;
            && d1.tokens == d.tokens && d1.challenges == d.challenges
            && ProgressPoints(d1.progress, key) == ProgressPoints(d.progress, key) + points
            && PointsOf(d1.leaderboard, userId) == PointsOf(d.leaderboard, userId) + points
            && |d1.history| == |d.history| + 1
  {
  }

  /**
   * A commit touches no other player's leaderboard row: every row of
   * another user stays at its position with its total, and the table only
   * grows.
   */
  lemma CommitKeepsOtherPlayersRows(d: Tables, userId: UserId, token: string, now: int)
    ensures var rows := UpdateStep(d, userId, token, now).db.leaderboard;
            && |rows| >= |d.leaderboard|
            && forall i :: 0 <= i < |d.leaderboard| && d.leaderboard[i].userId != userId ==> rows[i] == d.leaderboard[i]
  {
    if UpdateStep(d, userId, token, now).resp.status == 200 {
      match FindLeaderboardRow(d.leaderboard, userId)
      case None =>
      case Some(k) =>
        assert d.leaderboard[k].userId == userId;
    }
  }

  /**
   * The path the client takes (scan, answer correctly, commit) credits the
   * progress row twice and the leaderboard once: validateAnswer and
   * updateUserProgress both add the challenge's points to points_earned.
   */
  lemma {:induction false} ScanAnswerCommitCountsProgressTwice(
    d: Tables, userId: UserId, qrCode: string, t0: int, tokenValue: string, answer: string, t1: int, t2: int)
    requires tokenValue !in d.tokens
    requires ScannedLocation(d, qrCode).Some?
    requires (userId, ScannedLocation(d, qrCode).value.id) !in d.progress
    requires FindChallenge(d.challenges, ScannedLocation(d, qrCode).value.id).Some?
    requires AnswerAccepted(answer, FindChallenge(d.challenges, ScannedLocation(d, qrCode).value.id).value.correctAnswer)
    requires t1 <= t0 + TokenLifetimeMs && t2 <= t0 + TokenLifetimeMs
    ensures var loc := ScannedLocation(d, qrCode).value;
            var key := (userId, loc.id);
            var c := FindChallenge(d.challenges, loc.id).value;
            var s0 := ScanStep(d, userId, qrCode, t0, tokenValue);
            var s1 := ValidateStep(s0.db, userId, tokenValue, answer, t1);
            var s2 := UpdateStep(s1.db, userId, tokenValue, t2);
            && s0.resp.status == 200
            && s1.resp == Response(200, Answer(CorrectAnswerMsg, true, Some(c.points)))
            && s2.resp == Response(200, Notice(ProgressUpdatedMsg))
            && key in s2.db.progress && s2.db.progress[key].completed
            && s2.db.progress[key].pointsEarned == 2 * c.points
            && PointsOf(s2.db.leaderboard, userId) == PointsOf(d.leaderboard, userId) + c.points
  {
    var loc := ScannedLocation(d, qrCode).value;
    var key := (userId, loc.id);
    var c := FindChallenge(d.challenges, loc.id).value;
    var s0 := ScanStep(d, userId, qrCode, t0, tokenValue);
    assert s0.db.progress[key] == NewProgress();
    assert s0.db.tokens[tokenValue].locationId == loc.id;
    assert TokenLive(s0.db.tokens, tokenValue, t1);
    var s1 := ValidateStep(s0.db, userId, tokenValue, answer, t1);
    assert s1.resp.body.correct;
    assert s1.db.progress[key].pointsEarned == c.points;
    assert s1.db.leaderboard == d.leaderboard && s1.db.tokens == s0.db.tokens;
    assert TokenLive(s1.db.tokens, tokenValue, t2);
  }

  /**
   * Progress is never taken back by any game handler: no row disappears, a
   * completed row stays completed, and the hint cursor never moves
   * backwards.
   */
  ghost predicate ProgressGrows(before: map<ProgressKey, Progress>, after: map<ProgressKey, Progress>) {
    forall k :: k in before ==>
      && k in after
      && (before[k].completed ==> after[k].completed)
      && before[k].currentHint <= after[k].currentHint
  }

  lemma ScanGrowsProgress(d: Tables, userId: UserId, qrCode: string, now: int, tokenValue: string)
    requires tokenValue !in d.tokens
    ensures ProgressGrows(d.progress, ScanStep(d, userId, qrCode, now, tokenValue).db.progress)
  {
  }

  lemma ValidateGrowsProgress(d: Tables, userId: UserId, token: string, answer: string, now: int)
    ensures ProgressGrows(d.progress, ValidateStep(d, userId, token, answer, now).db.progress)
  {
  }

  lemma UpdateGrowsProgress(d: Tables, userId: UserId, token: string, now: int)
    ensures ProgressGrows(d.progress, UpdateStep(d, userId, token, now).db.progress)
  {
  }

  lemma NextHintGrowsProgress(d: Tables, userId: UserId, token: string, now: int)
    ensures ProgressGrows(d.progress, NextHintStep(d, userId, token, now).db.progress)
  {
  }

  /**
   * With non-negative challenge points, neither points_earned nor any
   * leaderboard total ever decreases.
   */
  lemma PointsNeverDecrease(d: Tables, userId: UserId, token: string, answer: string, now: int)
    requires forall i :: 0 <= i < |d.challenges| ==> d.challenges[i].points >= 0
    ensures forall k :: k in d.progress ==>
              ValidateStep(d, userId, token, answer, now).db.progress[k].pointsEarned >= d.progress[k].pointsEarned
    ensures forall k :: k in d.progress ==>
              UpdateStep(d, userId, token, now).db.progress[k].pointsEarned >= d.progress[k].pointsEarned
    ensures forall v :: PointsOf(UpdateStep(d, userId, token, now).db.leaderboard, v) >= PointsOf(d.leaderboard, v)
  {
    var st := UpdateStep(d, userId, token, now);
    if st.resp.status == 200 {
      var c := FindChallenge(d.challenges, d.tokens[token].locationId).value;
      assert c.points >= 0;
    }
    var sv := ValidateStep(d, userId, token, answer, now);
    if sv.resp.body.Answer? && sv.resp.body.correct {
      var c := FindChallenge(d.challenges, d.tokens[token].locationId).value;
      assert c.points >= 0;
    }
  }

  // ---------------------------------------------------------------------
  // Hints
  // ---------------------------------------------------------------------

  /**
   * A location with a single hint (order 1): the first request returns it
   * and moves the cursor to 2; every later request answers "no more hints"
   * and writes nothing.
   */
  lemma SingleHintIsGivenOnce(d: Tables, userId: UserId, token: string, now: int, h: Hint)
    requires TokenLive(d.tokens, token, now)
    requires (userId, d.tokens[token].locationId) in d.progress
    requires d.progress[(userId, d.tokens[token].locationId)].currentHint == 1
    requires h in d.hints && h.locationId == d.tokens[token].locationId && h.order == 1
    requires forall i :: 0 <= i < |d.hints| && d.hints[i].locationId == h.locationId ==> d.hints[i] == h
    ensures var s1 := NextHintStep(d, userId, token, now);
            var s2 := NextHintStep(s1.db, userId, token, now);
            && s1.resp == Response(200, HintText(h.text))
            && s1.db.progress[(userId, h.locationId)].currentHint == 2
            && s2 == Step(s1.db, Response(200, Notice(NoMoreHintsMsg)))
  {
    var key := (userId, h.locationId);
    assert FindHint(d.hints, h.locationId, 1).Some?;
    assert FindHint(d.hints, h.locationId, 2).None?;
  }

  // ---------------------------------------------------------------------
  // The leaderboard
  // ---------------------------------------------------------------------

  /**
   * The ranking lists every leaderboard row exactly once, in an order of
   * non-increasing points, with ranks 1, 2, ... and each row's user's
   * "first last" name and email.
   */
  ghost predicate IsRankingOf(entries: seq<RankEntry>, rows: seq<LeaderboardRow>, users: seq<User>) {
    exists order: seq<LeaderboardRow> ::
      && multiset(order) == multiset(rows)
      && SortedDesc(order)
      && ListsInOrder(entries, order, users)
  }

  /** Entry i is rank i + 1 and shows row i's points with its user's "first last" name and email. */
  ghost predicate ListsInOrder(entries: seq<RankEntry>, order: seq<LeaderboardRow>, users: seq<User>) {
    && |entries| == |order|
    && forall i :: 0 <= i < |order| ==>
         && FindUserById(users, order[i].userId).Some?
         && var u := FindUserById(users, order[i].userId).value;
         && entries[i] == RankEntry(i + 1, u.firstName + " " + u.lastName, u.email, order[i].totalPoints)
  }

  lemma LeaderboardIsRanking(d: Tables)
    ensures GetLeaderboard(d).status == 200 ==> IsRankingOf(GetLeaderboard(d).body.entries, d.leaderboard, d.users)
  {
    var r := GetLeaderboard(d);
    if r.status == 200 {
      var order := SortByPointsDesc(d.leaderboard);
      PermutedRowsHaveUsers(d.leaderboard, order, d.users);
      var entries := r.body.entries;
      forall i | 0 <= i < |order|
        ensures entries[i] == EntryFor(i, order[i], d.users)
      {
      }
      assert ListsInOrder(entries, order, d.users);
    }
  }

  /** In every reachable state each leaderboard row has its user, so the ranking is always answered. */
  lemma ValidLeaderboardAnswers(d: Tables)
    requires Valid(d)
    ensures GetLeaderboard(d).status == 200
  {
    forall i | 0 <= i < |d.leaderboard|
      ensures FindUserById(d.users, d.leaderboard[i].userId).Some?
    {
      var id := d.leaderboard[i].userId;
      assert d.users[id - 1].id == id;
    }
  }

  // ---------------------------------------------------------------------
  // The invariant
  // ---------------------------------------------------------------------

  /** Each game handler keeps the tables valid (updateUserProgress for a registered user, as the auth middleware ensures). */
  lemma ScanKeepsValid(d: Tables, userId: UserId, qrCode: string, now: int, tokenValue: string)
    requires Valid(d)
    requires tokenValue !in d.tokens
    ensures Valid(ScanStep(d, userId, qrCode, now, tokenValue).db)
  {
  }

  lemma ValidateKeepsValid(d: Tables, userId: UserId, token: string, answer: string, now: int)
    requires Valid(d)
    ensures Valid(ValidateStep(d, userId, token, answer, now).db)
  {
  }

  lemma UpdateKeepsValid(d: Tables, userId: UserId, token: string, now: int)
    requires Valid(d)
    requires IsRegistered(d, userId)
    ensures Valid(UpdateStep(d, userId, token, now).db)
  {
    var st := UpdateStep(d, userId, token, now);
    if st.resp.status == 200 {
      var c := FindChallenge(d.challenges, d.tokens[token].locationId).value;
      AddPointsKeepsRowsValid(d, userId, c.points);
    }
  }

  lemma NextHintKeepsValid(d: Tables, userId: UserId, token: string, now: int)
    requires Valid(d)
    ensures Valid(NextHintStep(d, userId, token, now).db)
  {
  }

  /** Adding a registered user's points keeps leaderboard rows attached to users and one per user. */
  lemma AddPointsKeepsRowsValid(d: Tables, userId: UserId, points: int)
    requires Valid(d)
    requires IsRegistered(d, userId)
    ensures var rows := AddPoints(d.leaderboard, userId, points);
            && (forall i :: 0 <= i < |rows| ==> 1 <= rows[i].userId <= |d.users|)
            && (forall i, j :: 0 <= i < j < |rows| ==> rows[i].userId != rows[j].userId)
  {
    var rows := AddPoints(d.leaderboard, userId, points);
    match FindLeaderboardRow(d.leaderboard, userId)
    case None =>
      assert rows == d.leaderboard + [LeaderboardRow(userId, points)];
      assert forall i :: 0 <= i < |d.leaderboard| ==> d.leaderboard[i].userId != userId;
    case Some(k) =>
      assert rows == d.leaderboard[k := d.leaderboard[k].(totalPoints := d.leaderboard[k].totalPoints + points)];
  }
}
