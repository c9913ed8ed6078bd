/** What a handler sends back: an HTTP status and the JSON body, and the tables it leaves behind. */
module Http {
  import opened Wrappers
  import opened Models
  import opened Database

  /** The claims a signed JWT carries; the signature itself is not modelled. */
  datatype Jwt = Jwt(userId: UserId, email: string, expiresInSeconds: nat)

  /** One line of the ranking. */
  datatype RankEntry = RankEntry(rank: nat, name: string, email: string, points: int)

  /** The JSON bodies the controllers send. */
  datatype Body =
    | Error(error: string)
    | Notice(message: string)
    | Scanned(message: string, location: string, token: string)
    | ChallengeView(question: string, points: int, options: seq<string>)
    | Answer(message: string, correct: bool, awarded: Option<int>)
    | HintText(hint: string)
    | Ranked(entries: seq<RankEntry>)
    | Registered(message: string, accessToken: Jwt, refreshToken: Jwt)
    | Tokens(accessToken: Jwt, refreshToken: Jwt)
    | Profile(name: string, points: int)

  datatype Response = Response(status: int, body: Body)

  /** The outcome of a handler that may write: the tables afterwards and the response. */
  datatype Step = Step(db: Tables, resp: Response)

  /** The body of every 500 response (the catch blocks). */
  const InternalErrorMsg := "Error interno del servidor."
}
