# Treasure hunt: verified model of the game and account handlers

This project models the server core of a campus treasure-hunt game, plus
the client's login-form check. Players register and log in. They scan a
QR code at a physical location and receive a short-lived access token for
that location. With the token they:

- read the location's challenge;
- answer it;
- commit their progress, which credits the leaderboard;
- ask for hints one at a time.

The leaderboard ranks players by total points.

The model has these parts:

- `Models`: the stored records. These are users, locations, challenges, hints, per-(user, location) progress, QR access tokens, leaderboard rows and participation history.
- `Database`: the tables as one value (`Tables`), and Sequelize's `findOne` as "the first row in table order that matches" (`FindFirst`). It also holds `Store`, a class whose fields are the tables and whose methods are the create/save calls the controllers make.
- `GameController`: the six game handlers of `server/controllers/gameController.js`.
  - Each handler that writes is a module-level `method` that takes a `store: Store` and updates it through the `Store`'s create/save methods. It is proved equal to a step function `...Step(tables, ...)`. That function gives the tables afterwards and the HTTP response.
  - The contracts of the step functions state the rejection order, the response, and exactly which tables change and how.
  - The read-only handlers are functions.
- `AuthController`: registration, login and the profile lookup of `server/controllers/authController.js`.
- `LoginForm`: `validateForm` and the submit guard of `client/src/components/Auth/Login.js`, including the e-mail pattern.
- `Ranking`: the leaderboard's order, as a sort proved to be ordered and a permutation.
- `Text`: JavaScript's `toLowerCase`, restricted to ASCII.
- `GameProperties` and `AuthProperties`: lemmas that relate several calls.

Behaviour of the code that is easy to misread:

- `updateUserProgress` is not idempotent. Every call adds the challenge's points to the progress row and to the leaderboard again. After `validateAnswer` has already credited the progress row, the client's scan → answer → commit path counts the points twice in `points_earned` and once on the leaderboard.
- A correct answer from a user with no progress row makes `validateAnswer` assign to a property of `null`. The handler answers 500 and writes nothing.
- `loginUser` does not check its fields. A request without an email makes `email.toLowerCase()` throw. A request without a password for a known email makes `bcrypt.compare` reject. Both answer 500, while a wrong email or password answers 401.
- The token's own `user_id` is never compared with the requesting user. Progress is keyed by the requesting user and the token's location.
- Hints are handed out in order by the per-user cursor. Past the last hint the answer is "no more hints" and the cursor stays put.

## Model

| member | source | states |
|---|---|---|
| Database.FindFirst | server/controllers/gameController.js:64 | findOne returns the first row in table order that satisfies the where clause, and none exactly when no row does |
| Database.FindFirstAppend | server/controllers/authController.js:44-49 | a row created at the end of a table changes a findOne only when no earlier row matched |
| Database.FindUserById | server/controllers/authController.js:107 | findByPk finds a user with that id, and none exactly when no user has it |
| Database.FindUserByEmail | server/controllers/authController.js:37 | the user found has exactly that email; none exactly when no user has it |
| Database.FindLocationByQr | server/controllers/gameController.js:64-67 | the location found carries the scanned QR code; none exactly when no location does |
| Database.FindChallenge | server/controllers/gameController.js:152-154 | the challenge found belongs to the location; none exactly when the location has no challenge |
| Database.FindHint | server/controllers/gameController.js:340-345 | the hint found belongs to the location and has the requested order; none exactly when no such hint exists |
| Database.AddPoints | server/controllers/gameController.js:286-296 | the user's first leaderboard row gets the points added in place, every other row staying where it is; without a row, one row holding the points is appended at the end. So that user's total rises by exactly the points and nobody else's changes |
| Database.Store.constructor | server/models/index.js:1-131 | a freshly seeded database has no users, progress, tokens, leaderboard rows or history, and is valid |
| Database.Store.CreateToken | server/controllers/gameController.js:84-89 | QRAccessToken.create adds one token under its unique value and changes nothing else |
| Database.Store.SaveProgress | server/controllers/gameController.js:93-99 | UserProgress.create / save writes the row for (user, location) and changes nothing else |
| Database.Store.CreateLeaderboardRow | server/controllers/authController.js:52 | Leaderboard.create appends one row and changes nothing else |
| Database.Store.SaveLeaderboardRow | server/controllers/gameController.js:294-295 | leaderboard.save replaces that one row and changes nothing else |
| Database.Store.CreateHistory | server/controllers/gameController.js:299-303 | ParticipationHistory.create appends one record and changes nothing else |
| Database.Store.CreateUser | server/controllers/authController.js:44-49 | CustomUser.create appends a user with the next auto-increment id and changes nothing else |
| Text.Lower | server/controllers/authController.js:37 | lower-casing keeps the length and maps each character on its own |
| Text.LowerEqualIff | server/controllers/gameController.js:215 | two strings are equal after lower-casing exactly when they have the same length and agree letter by letter ignoring case |
| GameController.AnswerAcceptedIff | server/controllers/gameController.js:215 | an answer is accepted exactly when it is non-empty and equals the correct answer letter by letter, ignoring case |
| Ranking.Insert | server/controllers/gameController.js:22-23 | inserting a row into rows ordered by points, highest first, keeps them ordered and adds exactly that row |
| Ranking.SortByPointsDesc | server/controllers/gameController.js:22-23 | ORDER BY total_points DESC yields the same rows, each once, in non-increasing order of points |
| GameController.GetLeaderboard | server/controllers/gameController.js:19-47 | 200 exactly when every row's user resolves, else 500; on 200 one entry per row, ranks 1, 2, ..., points non-increasing |
| GameProperties.LeaderboardIsRanking | server/controllers/gameController.js:33-40 | each entry is a row of the leaderboard, each row appears once, in non-increasing order, with its user's "first last" name and email |
| GameProperties.ValidLeaderboardAnswers | server/controllers/gameController.js:36-37 | in every valid state each leaderboard row has its user, so the ranking is always answered with 200 |
| GameController.ScanStep | server/controllers/gameController.js:53-113 | 400 without a QR code, 404 for an unknown one, 403 when the location is completed, none of them writing; otherwise a fresh token for (user, location) expiring 15 minutes later, progress created at cursor 1 only if absent, nothing else changed |
| GameController.ScanQrCode | server/controllers/gameController.js:53-113 | the handler's writes and response are exactly those of ScanStep |
| GameController.GetChallenge | server/controllers/gameController.js:119-171 | 404 unknown token, 403 expired, 403 already completed, 404 no challenge; 200 exactly otherwise, showing question, points and options but not the answer |
| GameController.ValidateStep | server/controllers/gameController.js:177-238 | token, completion and challenge checks in order; a wrong answer is reported and writes nothing; a right answer completes the row at `now` and adds the points once; a right answer with no progress row is 500 with no write |
| GameController.ValidateAnswer | server/controllers/gameController.js:177-238 | the handler's writes and response are exactly those of ValidateStep |
| GameController.UpdateStep | server/controllers/gameController.js:244-310 | with a live token and a challenge: progress found and added to (or created with the points), completed at `now`, the leaderboard credited exactly as by AddPoints (the user's total up by the same points, no one else's changed), one history record; otherwise the token or 404 error and no write |
| GameController.UpdateUserProgress | server/controllers/gameController.js:244-310 | the handler's writes and response are exactly those of UpdateStep |
| GameController.NextHintStep | server/controllers/gameController.js:316-363 | token checks, then 404 without progress; the hint at the cursor is returned and the cursor advances by one, or "no more hints" with no write |
| GameController.GetNextHint | server/controllers/gameController.js:316-363 | the handler's writes and response are exactly those of NextHintStep |
| GameProperties.TokenCheckedFirst | server/controllers/gameController.js:125-136 | every token-taking handler answers 404 for a token value not in the token table and 403 strictly after expiry, without writing; at the expiry instant the token still passes |
| GameProperties.TokenOwnerNeverCompared | server/controllers/gameController.js:184-197 | reassigning a token to another user changes no response and no table but the token's own row |
| GameProperties.ScannedTokenOpensChallenge | server/controllers/gameController.js:81 | the scanned token opens the challenge up to 15 minutes after the scan and is refused as expired afterwards |
| GameProperties.CompletedLocationRefusesScan | server/controllers/gameController.js:74-76 | after a correct answer, scanning the same location again is refused with 403 and writes nothing |
| GameProperties.CommitKeepsOtherPlayersRows | server/controllers/gameController.js:286-296 | a commit leaves every other player's leaderboard row at its position with its total, and the table never shrinks |
| GameProperties.RepeatedUpdatesAccumulate | server/controllers/gameController.js:279-296 | n commits add n times the points to the progress row and to the leaderboard and append n history records |
| GameProperties.ScanAnswerCommitCountsProgressTwice | server/controllers/gameController.js:219 | scan, correct answer and commit leave points_earned at twice the challenge's points and raise the leaderboard by them once |
| GameProperties.ScanGrowsProgress | server/controllers/gameController.js:92-100 | scanning removes no progress row, un-completes none and moves no cursor back |
| GameProperties.ValidateGrowsProgress | server/controllers/gameController.js:215-220 | answering removes no progress row, un-completes none and moves no cursor back |
| GameProperties.UpdateGrowsProgress | server/controllers/gameController.js:267-283 | committing removes no progress row, un-completes none and moves no cursor back |
| GameProperties.NextHintGrowsProgress | server/controllers/gameController.js:355-356 | asking for a hint removes no progress row, un-completes none and only moves the cursor forward |
| GameProperties.PointsNeverDecrease | server/controllers/gameController.js:219 | with non-negative challenge points, no points_earned and no leaderboard total ever decreases |
| GameProperties.SingleHintIsGivenOnce | server/controllers/gameController.js:340-358 | a location's single hint is returned once, and every later request answers "no more hints" without writing |
| GameProperties.ScanKeepsValid | server/controllers/gameController.js:92-100 | scanning keeps the tables valid |
| GameProperties.ValidateKeepsValid | server/controllers/gameController.js:215-220 | answering keeps the tables valid; a completed row has a completion time |
| GameProperties.UpdateKeepsValid | server/controllers/gameController.js:266-296 | committing for a registered user keeps the tables valid, with at most one leaderboard row per user |
| GameProperties.NextHintKeepsValid | server/controllers/gameController.js:355-356 | asking for a hint keeps the tables valid |
| GameProperties.AddPointsKeepsRowsValid | server/controllers/gameController.js:286-296 | crediting a registered user keeps every leaderboard row attached to a user and one row per user |
| AuthController.RegisterStep | server/controllers/authController.js:29-66 | 400 when a field is missing, 400 when the lower-cased email is taken, no write on either; otherwise a user with the next id and the lower-cased email, a leaderboard row at 0, and tokens for that user |
| AuthController.RegisterUser | server/controllers/authController.js:29-66 | the handler's writes and response are exactly those of RegisterStep |
| AuthController.GenerateTokens | server/controllers/authController.js:9-23 | an access token for one hour and a refresh token for seven days (168 times as long), both carrying the user's id and email |
| AuthController.LoginUser | server/controllers/authController.js:72-97 | 200 exactly when both fields are present and the lower-cased email finds a user whose hash matches the password, with tokens for that user; the same 401 for an unknown email and for a wrong password (present and not matching the found user's hash); 500 for a missing email, and for a missing password once the email has found a user |
| AuthController.GetUserData | server/controllers/authController.js:103-123 | 404 exactly when no user has the id; otherwise the "first last" name and the leaderboard total, 0 without a row |
| AuthProperties.RegisterKeepsValid | server/controllers/authController.js:44-52 | registration keeps ids sequential, emails unique and one leaderboard row per user |
| AuthProperties.RegisteredEmailRefusedInAnyCase | server/controllers/authController.js:37-40 | once an email is registered, registering it again in any letter case is refused with 400 |
| AuthProperties.NewUserProfile | server/controllers/authController.js:107-118 | right after registering, the profile under the new id shows the full name and 0 points |
| AuthProperties.NewUserCanLogIn | server/controllers/authController.js:75-92 | right after registering, logging in with the same password and the email in any case returns tokens for the new account |
| AuthProperties.StoredEmailLogsIn | server/controllers/authController.js:72-84 | right after registration, the email exactly as stored (already lower-cased) with the same password logs the new user in with that account's tokens |
| AuthProperties.LoginIgnoresEmailCase | server/controllers/authController.js:75 | login gives the same answer for two emails that differ only in letter case |
| LoginForm.StepwiseMatchIsMatch | client/src/components/Auth/Login.js:20 | every string the engine-style reading accepts is a run of class characters followed by the domain |
| LoginForm.MatchIsStepwiseMatch | client/src/components/Auth/Login.js:20 | every run of class characters followed by the domain is accepted by the engine-style reading |
| LoginForm.PatternReadingsAgree | client/src/components/Auth/Login.js:20 | the e-mail pattern read as "class characters, then the domain" and read the way a regex engine steps through it accept the same strings |
| LoginForm.ValidateForm | client/src/components/Auth/Login.js:15-29 | an empty email gets "required"; a non-empty one passes exactly when it matches the pattern, else gets the domain message; the password error is present exactly when the password is empty |
| LoginForm.FormAcceptedIff | client/src/components/Auth/Login.js:15-29 | the error record is empty exactly when the email matches the pattern and a password was given |
| LoginForm.HandleSubmit | client/src/components/Auth/Login.js:32-41 | the credentials are sent exactly when validation finds no error; otherwise the errors are shown and nothing is sent |

## Left out

- I/O and side channels are left out: HTTP parsing, `console.error` and the JSON encoding of responses. Responses are a status and a `Body` value.
- The catch-all 500 paths for database failures are not modelled. The 500s the code reaches through its own logic are modelled: the null progress row in `validateAnswer`, a leaderboard row without a user in `getLeaderboard`, and a missing email or password in `loginUser`. The store never fails.
- QR token values are compared as strings, but the token column is a PostgreSQL `UUID` (`server/models/qrAccessToken.js`), which compares as a value. In the source, an upper-case or hyphen-less spelling of a stored token finds the same row, and a path token that is not a UUID makes the query fail with 500. The model answers 404 in both cases.
- GameProperties.TokenCheckedFirst: its 404 covers a token string absent from the model's string-keyed token table, not the UUID value comparison above.
- Column limits are not modelled, because the store never fails. `first_name` and `last_name` are `STRING(30)` (`server/models/customUser.js`), so a longer name makes registration answer 500 where `AuthController.RegisterStep` answers 201. The `INTEGER` point and order columns can overflow, while the model's integers are unbounded.
- The clock is a parameter `now`, in milliseconds. `uuidv4()` is a parameter `tokenValue`, assumed not yet in the token table; the column is unique.
- bcrypt is opaque. Registration receives the stored hash. Login receives `bcrypt.compare` as a function `passwordMatches`.
- JSON Web Tokens are represented by their claims and lifetime, not by a signed string. Verifying them in `server/middlewares/auth.js` is not part of this model. Handlers receive the user id the middleware put on the request.
- Concurrency is not modelled. Every request runs alone against the tables, so lost updates between racing requests cannot be expressed.
- Where a handler guards a field with `!field` (register, scan, validate), a missing field and the empty string take the same path, so both are the empty string in the model. `loginUser` has no such guard, and its fields are `Option` values. Non-string JSON values, which make `toLowerCase` throw and answer 500, are not modelled.
- Text.Lower: folds ASCII A–Z only. JavaScript's `toLowerCase` also folds other Unicode letters. Answers and emails that differ only in non-ASCII case compare unequal in the model.
- Ranking.SortByPointsDesc: the database leaves the order of rows with equal points unspecified. The model keeps table order among ties, and the properties state only the non-increasing order.
- Database.FindFirst: `findOne` without an `ORDER BY` returns a row the database chooses. The model takes the first in table order.
- The ORM's `createdAt` and `updatedAt` columns are not modelled, except the history record's `createdAt`, which is `now`. `completed_at` is not an ORM timestamp: the handlers set it themselves, and it is `now` in the model.
- The React rendering, navigation and token storage of `Login.js` are left out, and so is the fetch to `/login`. Only `validateForm` and the guard that skips the request are modelled.
- Other client components, the routes file and the model definitions' SQL schema are not part of this model. The progress defaults that matter (cursor 1, not completed, 0 points) appear in `Models`. The new user's leaderboard total of 0 is written explicitly at registration and appears in `AuthController.RegisterStep`.
