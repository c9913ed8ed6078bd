/**
 * The record shapes of the Sequelize models and the defaults the core relies on.
 * Timestamps are integers in milliseconds, as JavaScript's Date holds them.
 */
module Models {
  import opened Wrappers

  type UserId = nat
  type LocationId = nat

  /** CustomUser: email is unique; password holds the bcrypt hash. */
  datatype User = User(id: UserId, email: string, password: string, firstName: string, lastName: string)

  /** Location: qr_code is unique. */
  datatype Location = Location(id: LocationId, name: string, qrCode: string)

  /** Challenge, belonging to a location. */
  datatype Challenge = Challenge(
    locationId: LocationId,
    question: string,
    correctAnswer: string,
    points: int,
    options: seq<string>)

  /** Hint, belonging to a location, with its display order. */
  datatype Hint = Hint(locationId: LocationId, order: int, text: string)

  /** UserProgress of one user at one location. */
  datatype Progress = Progress(currentHint: int, completed: bool, pointsEarned: int, completedAt: Option<int>)

  /** QRAccessToken: binds a user and a location until expiresAt. */
  datatype AccessToken = AccessToken(userId: UserId, locationId: LocationId, expiresAt: int)

  /** Leaderboard row: a user's total. */
  datatype LeaderboardRow = LeaderboardRow(userId: UserId, totalPoints: int)

  /** ParticipationHistory row (createdAt is Sequelize's timestamp). */
  datatype HistoryRecord = HistoryRecord(userId: UserId, locationId: LocationId, action: string, createdAt: int)

  /** Column default of UserProgress.current_hint. */
  const DefaultCurrentHint := 1

  const MinuteMs := 60 * 1000
  /** A scanned token is valid for fifteen minutes. */
  const TokenLifetimeMs := 15 * MinuteMs

  /** The progress row a first scan creates: cursor at the first hint, nothing earned. */
  function NewProgress(): Progress {
    Progress(DefaultCurrentHint, false, 0, None)
  }
}
