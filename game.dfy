/**
 * The game handlers of server/controllers/gameController.js.
 *
 * Each handler that writes is a method that takes the Store and updates it
 * through the Store's create/save methods. It is proved equal to a step
 * function `...Step(tables, ...)` that gives the tables afterwards and the
 * response. The read-only handlers (getLeaderboard, getChallenge) are
 * functions of the tables. `userId` is the id the auth middleware put on the
 * request, `now` the server clock in milliseconds, and `tokenValue` the value
 * uuidv4() produced.
 */
module GameController {
  import opened Wrappers
  import opened Text
  import opened Models
  import opened Database
  import opened Http
  import opened Ranking

  const QrRequiredMsg := "El código QR es obligatorio."
  const QrInvalidMsg := "Código QR no válido."
  const ScanCompletedMsg := "Ya has completado este desafío."
  const ScanOkMsg := "QR escaneado con éxito."
  const InvalidTokenMsg := "Token inválido."
  const TokenExpiredMsg := "El token ha expirado."
  const ChallengeCompletedMsg := "Este desafío ya ha sido completado."
  const NoChallengeHereMsg := "No hay desafíos disponibles para esta ubicación."
  const ChallengeNotFoundMsg := "No se encontró el desafío para esta ubicación."
  const CorrectAnswerMsg := "Respuesta correcta."
  const WrongAnswerMsg := "Respuesta incorrecta."
  const NoChallengesMsg := "No hay desafíos disponibles."
  const CompletedAction := "Completó el desafío"
  const ProgressUpdatedMsg := "Progreso del usuario actualizado con éxito."
  const NoProgressMsg := "No se encontró progreso."
  const NoMoreHintsMsg := "No hay más pistas disponibles para esta ubicación."

  // ---------------------------------------------------------------------
  // Shared checks
  // ---------------------------------------------------------------------

  /** The token exists and the clock is not after its expiry (moment().isAfter is strict). */
  predicate TokenLive(tokens: map<string, AccessToken>, token: string, now: int) {
    token in tokens && now <= tokens[token].expiresAt
  }

  /** The response of a failed token check: unknown value first, then expiry. */
  function TokenRejection(tokens: map<string, AccessToken>, token: string): Response {
    if token !in tokens then Response(404, Error(InvalidTokenMsg)) else Response(403, Error(TokenExpiredMsg))
  }

  /** `userProgress && userProgress.completed`. */
  predicate IsCompleted(progress: map<ProgressKey, Progress>, key: ProgressKey) {
    key in progress && progress[key].completed
  }

  /** Points earned at a location so far, 0 before the first scan. */
  function ProgressPoints(progress: map<ProgressKey, Progress>, key: ProgressKey): int {
    if key in progress then progress[key].pointsEarned else 0
  }

  /** `answer && correct_answer.toLowerCase() === answer.toLowerCase()`; a missing answer is the empty string. */
  predicate AnswerAccepted(answer: string, correctAnswer: string) {
    answer != "" && Lower(correctAnswer) == Lower(answer)
  }

  /** An answer is accepted exactly when it is non-empty and matches the correct one letter by letter, ignoring case. */
  lemma AnswerAcceptedIff(answer: string, correctAnswer: string)
    ensures AnswerAccepted(answer, correctAnswer) <==>
            answer != "" && |answer| == |correctAnswer| &&
            forall i :: 0 <= i < |answer| ==> LowerChar(answer[i]) == LowerChar(correctAnswer[i])
  {
    LowerEqualIff(correctAnswer, answer);
  }

  /** Marks a progress row completed at `now` and adds the points once. */
  function Award(p: Progress, points: int, now: int): Progress {
    p.(completed := true, completedAt := Some(now), pointsEarned := p.pointsEarned + points)
  }

  // ---------------------------------------------------------------------
  // getLeaderboard
  // ---------------------------------------------------------------------

  function FullName(firstName: string, lastName: string): string {
    firstName + " " + lastName
  }

  /** `entry.user` resolves for every row (otherwise the handler throws and answers 500). */
  predicate RowsHaveUsers(rows: seq<LeaderboardRow>, users: seq<User>) {
    forall i :: 0 <= i < |rows| ==> FindUserById(users, rows[i].userId).Some?
  }

  /** The ranking line for the row at position i of the sorted rows. */
  function EntryFor(i: nat, row: LeaderboardRow, users: seq<User>): RankEntry
    requires FindUserById(users, row.userId).Some?
  {
    var u := FindUserById(users, row.userId).value;
    RankEntry(i + 1, FullName(u.firstName, u.lastName), u.email, row.totalPoints)
  }

  /** Reordering the rows keeps every row's user resolvable. */
  lemma PermutedRowsHaveUsers(rows: seq<LeaderboardRow>, order: seq<LeaderboardRow>, users: seq<User>)
    requires multiset(order) == multiset(rows)
    requires RowsHaveUsers(rows, users)
    ensures RowsHaveUsers(order, users)
  {
    forall i | 0 <= i < |order| ensures FindUserById(users, order[i].userId).Some? {
      assert order[i] in multiset(rows);
      var j :| 0 <= j < |rows| && rows[j] == order[i];
    }
  }

  /** GET /leaderboard. */
  function GetLeaderboard(d: Tables): (r: Response)
    ensures r.status == 200 <==> RowsHaveUsers(d.leaderboard, d.users)
    ensures r.status != 200 ==> r == Response(500, Error(InternalErrorMsg))
    ensures r.status == 200 ==> r.body.Ranked? && |r.body.entries| == |d.leaderboard|
    ensures r.status == 200 ==> forall i :: 0 <= i < |r.body.entries| ==> r.body.entries[i].rank == i + 1
    ensures r.status == 200 ==>
              forall i, j :: 0 <= i < j < |r.body.entries| ==> r.body.entries[i].points >= r.body.entries[j].points
  {
    var sorted := SortByPointsDesc(d.leaderboard);
    if RowsHaveUsers(d.leaderboard, d.users) then
      PermutedRowsHaveUsers(d.leaderboard, sorted, d.users);
      Response(200, Ranked(seq(|sorted|, i requires 0 <= i < |sorted| => EntryFor(i, sorted[i], d.users))))
    else
      Response(500, Error(InternalErrorMsg))
  }

  // ---------------------------------------------------------------------
  // scanQrCode
  // ---------------------------------------------------------------------

  /** The location a non-empty QR code names, if any. */
  function ScannedLocation(d: Tables, qrCode: string): Option<Location> {
    if qrCode == "" then None else FindLocationByQr(d.locations, qrCode)
  }

  /** POST /scan-qr. */
  function ScanStep(d: Tables, userId: UserId, qrCode: string, now: int, tokenValue: string): (st: Step)
    requires tokenValue !in d.tokens
    // the rejections, in order; none of them writes anything
    ensures qrCode == "" ==> st.resp == Response(400, Error(QrRequiredMsg))
    ensures qrCode != "" && ScannedLocation(d, qrCode).None? ==> st.resp == Response(404, Error(QrInvalidMsg))
    ensures ScannedLocation(d, qrCode).Some? && IsCompleted(d.progress, (userId, ScannedLocation(d, qrCode).value.id)) ==>
              st.resp == Response(403, Error(ScanCompletedMsg))
    ensures st.resp.status != 200 ==> st.db == d
    // success: a token for (user, location) valid for fifteen minutes, and a progress row that is not completed
    ensures st.resp.status == 200 <==>
              ScannedLocation(d, qrCode).Some? && !IsCompleted(d.progress, (userId, ScannedLocation(d, qrCode).value.id))
    ensures st.resp.status == 200 ==>
              var loc := ScannedLocation(d, qrCode).value;
              var key := (userId, loc.id);
              && st.resp.body == Scanned(ScanOkMsg, loc.name, tokenValue)
              && st.db.tokens.Keys == d.tokens.Keys + {tokenValue}
              && st.db.tokens[tokenValue] == AccessToken(userId, loc.id, now + TokenLifetimeMs)
              && (forall t :: t in d.tokens ==> st.db.tokens[t] == d.tokens[t])
              && (key in d.progress ==> st.db.progress == d.progress)
              && (key !in d.progress ==> st.db.progress == d.progress[key := NewProgress()])
              && st.db == d.(tokens := st.db.tokens, progress := st.db.progress)
  {
    if qrCode == "" then Step(d, Response(400, Error(QrRequiredMsg)))
    else match FindLocationByQr(d.locations, qrCode)
      case None => Step(d, Response(404, Error(QrInvalidMsg)))
      case Some(loc) =>
        var key := (userId, loc.id);
        if IsCompleted(d.progress, key) then Step(d, Response(403, Error(ScanCompletedMsg)))
        else
          var tokens := d.tokens[tokenValue := AccessToken(userId, loc.id, now + TokenLifetimeMs)];
          var progress := if key in d.progress then d.progress else d.progress[key := NewProgress()];
          Step(d.(tokens := tokens, progress := progress), Response(200, Scanned(ScanOkMsg, loc.name, tokenValue)))
  }

  method ScanQrCode(store: Store, userId: UserId, qrCode: string, now: int, tokenValue: string) returns (r: Response)
    requires tokenValue !in store.tokens
    modifies store
    ensures Step(store.Snapshot(), r) == ScanStep(old(store.Snapshot()), userId, qrCode, now, tokenValue)
  {
    if qrCode == "" {
      return Response(400, Error(QrRequiredMsg));
    }
    var location := FindLocationByQr(store.locations, qrCode);
    if location.None? {
      return Response(404, Error(QrInvalidMsg));
    }
    var loc := location.value;
    var key := (userId, loc.id);
    var found := key in store.progress;
    if found && store.progress[key].completed {
      return Response(403, Error(ScanCompletedMsg));
    }
    var expiresAt := now + TokenLifetimeMs;
    store.CreateToken(tokenValue, AccessToken(userId, loc.id, expiresAt));
    if !found {
      store.SaveProgress(key, NewProgress());
    }
    return Response(200, Scanned(ScanOkMsg, loc.name, tokenValue));
  }

  // ---------------------------------------------------------------------
  // getChallenge
  // ---------------------------------------------------------------------

  /** GET /get_challenge/:token. Reads only; the correct answer is not part of the view. */
  function GetChallenge(d: Tables, userId: UserId, token: string, now: int): (r: Response)
    ensures !TokenLive(d.tokens, token, now) ==> r == TokenRejection(d.tokens, token)
    ensures TokenLive(d.tokens, token, now) && IsCompleted(d.progress, (userId, d.tokens[token].locationId)) ==>
              r == Response(403, Notice(ChallengeCompletedMsg))
    ensures TokenLive(d.tokens, token, now) && !IsCompleted(d.progress, (userId, d.tokens[token].locationId))
              && FindChallenge(d.challenges, d.tokens[token].locationId).None? ==>
              r == Response(404, Notice(NoChallengeHereMsg))
    ensures r.status == 200 <==>
              TokenLive(d.tokens, token, now) && !IsCompleted(d.progress, (userId, d.tokens[token].locationId))
              && FindChallenge(d.challenges, d.tokens[token].locationId).Some?
    ensures r.status == 200 ==>
              var c := FindChallenge(d.challenges, d.tokens[token].locationId).value;
              r.body == ChallengeView(c.question, c.points, c.options)
  {
    if !TokenLive(d.tokens, token, now) then TokenRejection(d.tokens, token)
    else
      var loc := d.tokens[token].locationId;
      if IsCompleted(d.progress, (userId, loc)) then Response(403, Notice(ChallengeCompletedMsg))
      else match FindChallenge(d.challenges, loc)
        case None => Response(404, Notice(NoChallengeHereMsg))
        case Some(c) => Response(200, ChallengeView(c.question, c.points, c.options))
  }

  // ---------------------------------------------------------------------
  // validateAnswer
  // ---------------------------------------------------------------------

  /**
   * POST /validate_answer/:token. When the answer is right but the user has
   * no progress row, `userProgress.completed = true` throws on null and the
   * handler answers 500 without writing.
   */
  function ValidateStep(d: Tables, userId: UserId, token: string, answer: string, now: int): (st: Step)
    ensures !TokenLive(d.tokens, token, now) ==> st == Step(d, TokenRejection(d.tokens, token))
    ensures TokenLive(d.tokens, token, now) && IsCompleted(d.progress, (userId, d.tokens[token].locationId)) ==>
              st == Step(d, Response(403, Notice(ChallengeCompletedMsg)))
    ensures TokenLive(d.tokens, token, now) && !IsCompleted(d.progress, (userId, d.tokens[token].locationId))
              && FindChallenge(d.challenges, d.tokens[token].locationId).None? ==>
              st == Step(d, Response(404, Error(ChallengeNotFoundMsg)))
    // a wrong answer is reported and writes nothing
    ensures st.resp.body.Answer? && !st.resp.body.correct ==> st == Step(d, Response(200, Answer(WrongAnswerMsg, false, None)))
    ensures !(st.resp.body.Answer? && st.resp.body.correct) ==> st.db == d
    ensures st.resp.status == 200 <==>
              TokenLive(d.tokens, token, now) && !IsCompleted(d.progress, (userId, d.tokens[token].locationId))
              && FindChallenge(d.challenges, d.tokens[token].locationId).Some?
              && (AnswerAccepted(answer, FindChallenge(d.challenges, d.tokens[token].locationId).value.correctAnswer)
                  ==> (userId, d.tokens[token].locationId) in d.progress)
    ensures st.resp.status == 200 ==>
              st.resp.body.Answer? &&
              (st.resp.body.correct <==>
                 AnswerAccepted(answer, FindChallenge(d.challenges, d.tokens[token].locationId).value.correctAnswer))
    ensures st.resp.status != 200 && TokenLive(d.tokens, token, now) && !IsCompleted(d.progress, (userId, d.tokens[token].locationId))
              && FindChallenge(d.challenges, d.tokens[token].locationId).Some? ==>
              st == Step(d, Response(500, Error(InternalErrorMsg)))
    // a right answer completes the progress row and adds the challenge's points to it, once
    ensures st.resp.body.Answer? && st.resp.body.correct ==>
              var key := (userId, d.tokens[token].locationId);
              var c := FindChallenge(d.challenges, d.tokens[token].locationId).value;
              && key in d.progress
              && st.resp == Response(200, Answer(CorrectAnswerMsg, true, Some(c.points)))
              && key in st.db.progress
              && st.db.progress[key].completed
              && st.db.progress[key].completedAt == Some(now)
              && st.db.progress[key].pointsEarned == d.progress[key].pointsEarned + c.points
              && st.db.progress[key].currentHint == d.progress[key].currentHint
              && st.db == d.(progress := d.progress[key := st.db.progress[key]])
  {
    if !TokenLive(d.tokens, token, now) then Step(d, TokenRejection(d.tokens, token))
    else
      var key := (userId, d.tokens[token].locationId);
      if IsCompleted(d.progress, key) then Step(d, Response(403, Notice(ChallengeCompletedMsg)))
      else match FindChallenge(d.challenges, key.1)
        case None => Step(d, Response(404, Error(ChallengeNotFoundMsg)))
        case Some(c) =>
          if AnswerAccepted(answer, c.correctAnswer) then
            if key !in d.progress then Step(d, Response(500, Error(InternalErrorMsg)))
            else
              Step(d.(progress := d.progress[key := Award(d.progress[key], c.points, now)]),
                   Response(200, Answer(CorrectAnswerMsg, true, Some(c.points))))
          else
            Step(d, Response(200, Answer(WrongAnswerMsg, false, None)))
  }

  method ValidateAnswer(store: Store, userId: UserId, token: string, answer: string, now: int) returns (r: Response)
    modifies store
    ensures Step(store.Snapshot(), r) == ValidateStep(old(store.Snapshot()), userId, token, answer, now)
  {
    if token !in store.tokens {
      return Response(404, Error(InvalidTokenMsg));
    }
    var qrToken := store.tokens[token];
    if now > qrToken.expiresAt {
      return Response(403, Error(TokenExpiredMsg));
    }
    var key := (userId, qrToken.locationId);
    var userProgress := if key in store.progress then Some(store.progress[key]) else None;
    if userProgress.Some? && userProgress.value.completed {
      return Response(403, Notice(ChallengeCompletedMsg));
    }
    var challenge := FindChallenge(store.challenges, qrToken.locationId);
    if challenge.None? {
      return Response(404, Error(ChallengeNotFoundMsg));
    }
    var c := challenge.value;
    if answer != "" && Lower(c.correctAnswer) == Lower(answer) {
      if userProgress.None? {
        // the property assignment on null throws; the catch block answers 500
        return Response(500, Error(InternalErrorMsg));
      }
      var p := userProgress.value;
      p := p.(completed := true);
      p := p.(completedAt := Some(now));
      p := p.(pointsEarned := p.pointsEarned + c.points);
      store.SaveProgress(key, p);
      return Response(200, Answer(CorrectAnswerMsg, true, Some(c.points)));
    } else {
      return Response(200, Answer(WrongAnswerMsg, false, None));
    }
  }

  // ---------------------------------------------------------------------
  // updateUserProgress
  // ---------------------------------------------------------------------

  /**
   * POST /update_user_progress/:token. There is no completed check: every
   * call adds the challenge's points to the progress row and to the
   * leaderboard again, and appends a history record.
   */
  function UpdateStep(d: Tables, userId: UserId, token: string, now: int): (st: Step)
    ensures !TokenLive(d.tokens, token, now) ==> st == Step(d, TokenRejection(d.tokens, token))
    ensures TokenLive(d.tokens, token, now) && FindChallenge(d.challenges, d.tokens[token].locationId).None? ==>
              st == Step(d, Response(404, Error(NoChallengesMsg)))
    ensures st.resp.status == 200 <==>
              TokenLive(d.tokens, token, now) && FindChallenge(d.challenges, d.tokens[token].locationId).Some?
    ensures st.resp.status == 200 ==>
              var loc := d.tokens[token].locationId;
              var key := (userId, loc);
              var points := FindChallenge(d.challenges, loc).value.points;
              && st.resp == Response(200, Notice(ProgressUpdatedMsg))
              // progress: found and added to, or created holding exactly these points
              && key in st.db.progress
              && st.db.progress[key].completed
              && st.db.progress[key].completedAt == Some(now)
              && ProgressPoints(st.db.progress, key) == ProgressPoints(d.progress, key) + points
              && st.db.progress[key].currentHint == (if key in d.progress then d.progress[key].currentHint else DefaultCurrentHint)
              && st.db.progress == d.progress[key := st.db.progress[key]]
              // leaderboard: this user's total grows by the same points, nobody else's changes
              && PointsOf(st.db.leaderboard, userId) == PointsOf(d.leaderboard, userId) + points
              && (forall v :: v != userId ==> PointsOf(st.db.leaderboard, v) == PointsOf(d.leaderboard, v))
              && st.db.leaderboard == AddPoints(d.leaderboard, userId, points)
              // one more history record
              && st.db.history == d.history + [HistoryRecord(userId, loc, CompletedAction, now)]
              && st.db == d.(progress := st.db.progress, leaderboard := st.db.leaderboard, history := st.db.history)
    ensures st.resp.status != 200 ==> st.db == d
  {
    if !TokenLive(d.tokens, token, now) then Step(d, TokenRejection(d.tokens, token))
    else
      var loc := d.tokens[token].locationId;
      match FindChallenge(d.challenges, loc)
      case None => Step(d, Response(404, Error(NoChallengesMsg)))
      case Some(c) =>
        var key := (userId, loc);
        var p := if key in d.progress then Award(d.progress[key], c.points, now)
                 else Progress(DefaultCurrentHint, true, c.points, Some(now));
        Step(d.(progress := d.progress[key := p],
                leaderboard := AddPoints(d.leaderboard, userId, c.points),
                history := d.history + [HistoryRecord(userId, loc, CompletedAction, now)]),
             Response(200, Notice(ProgressUpdatedMsg)))
  }

  method UpdateUserProgress(store: Store, userId: UserId, token: string, now: int) returns (r: Response)
    modifies store
    ensures Step(store.Snapshot(), r) == UpdateStep(old(store.Snapshot()), userId, token, now)
  {
    if token !in store.tokens {
      return Response(404, Error(InvalidTokenMsg));
    }
    var qrToken := store.tokens[token];
    if now > qrToken.expiresAt {
      return Response(403, Error(TokenExpiredMsg));
    }
    var challenge := FindChallenge(store.challenges, qrToken.locationId);
    if challenge.None? {
      return Response(404, Error(NoChallengesMsg));
    }
    ghost var d := store.Snapshot();
    var points := challenge.value.points;
    var key := (userId, qrToken.locationId);
    if key !in store.progress {
      store.SaveProgress(key, Progress(DefaultCurrentHint, true, points, Some(now)));
    } else {
      var p := store.progress[key];
      p := p.(pointsEarned := p.pointsEarned + points);
      p := p.(completed := true);
      p := p.(completedAt := Some(now));
      store.SaveProgress(key, p);
    }
    assert store.Snapshot() == d.(progress := store.progress);
    var row := FindLeaderboardRow(store.leaderboard, userId);
    if row.None? {
      store.CreateLeaderboardRow(LeaderboardRow(userId, points));
    } else {
      var i := row.value;
      var entry := store.leaderboard[i];
      store.SaveLeaderboardRow(i, entry.(totalPoints := entry.totalPoints + points));
    }
    assert store.leaderboard == AddPoints(d.leaderboard, userId, points);
    store.CreateHistory(HistoryRecord(userId, qrToken.locationId, CompletedAction, now));
    return Response(200, Notice(ProgressUpdatedMsg));
  }

  // ---------------------------------------------------------------------
  // getNextHint
  // ---------------------------------------------------------------------

  /**
   * GET /get_next_hint/:token. Hands out the location's hint whose order is
   * the user's cursor and moves the cursor on by one; when there is none,
   * says so and leaves the cursor where it is.
   */
  function NextHintStep(d: Tables, userId: UserId, token: string, now: int): (st: Step)
    ensures !TokenLive(d.tokens, token, now) ==> st == Step(d, TokenRejection(d.tokens, token))
    ensures TokenLive(d.tokens, token, now) && (userId, d.tokens[token].locationId) !in d.progress ==>
              st == Step(d, Response(404, Error(NoProgressMsg)))
    ensures st.resp.status == 200 <==>
              TokenLive(d.tokens, token, now) && (userId, d.tokens[token].locationId) in d.progress
    ensures st.resp.body.HintText? <==>
              && st.resp.status == 200
              && FindHint(d.hints, d.tokens[token].locationId, d.progress[(userId, d.tokens[token].locationId)].currentHint).Some?
    ensures st.resp.status == 200 && !st.resp.body.HintText? ==> st.resp == Response(200, Notice(NoMoreHintsMsg))
    ensures !st.resp.body.HintText? ==> st.db == d
    ensures st.resp.body.HintText? ==>
              var loc := d.tokens[token].locationId;
              var key := (userId, loc);
              var h := FindHint(d.hints, loc, d.progress[key].currentHint).value;
              && h.locationId == loc && h.order == d.progress[key].currentHint
              && st.resp == Response(200, HintText(h.text))
              && st.db == d.(progress := d.progress[key := d.progress[key].(currentHint := d.progress[key].currentHint + 1)])
  {
    if !TokenLive(d.tokens, token, now) then Step(d, TokenRejection(d.tokens, token))
    else
      var loc := d.tokens[token].locationId;
      var key := (userId, loc);
      if key !in d.progress then Step(d, Response(404, Error(NoProgressMsg)))
      else
        var p := d.progress[key];
        match FindHint(d.hints, loc, p.currentHint)
        case None => Step(d, Response(200, Notice(NoMoreHintsMsg)))
        case Some(h) =>
          Step(d.(progress := d.progress[key := p.(currentHint := p.currentHint + 1)]), Response(200, HintText(h.text)))
  }

  method GetNextHint(store: Store, userId: UserId, token: string, now: int) returns (r: Response)
    modifies store
    ensures Step(store.Snapshot(), r) == NextHintStep(old(store.Snapshot()), userId, token, now)
  {
    if token !in store.tokens {
      return Response(404, Error(InvalidTokenMsg));
    }
    var qrToken := store.tokens[token];
    if now > qrToken.expiresAt {
      return Response(403, Error(TokenExpiredMsg));
    }
    var key := (userId, qrToken.locationId);
    if key !in store.progress {
      return Response(404, Error(NoProgressMsg));
    }
    var p := store.progress[key];
    var nextHint := FindHint(store.hints, qrToken.locationId, p.currentHint);
    if nextHint.None? {
      return Response(200, Notice(NoMoreHintsMsg));
    }
    store.SaveProgress(key, p.(currentHint := p.currentHint + 1));
    return Response(200, HintText(nextHint.value.text));
  }
}
