/** Records and enumerations shared by the tournament ("mega contest") code: the contest
    definition read from the cache, the room record kept in the store, and the game ticket
    handed to each seated player. */
module MegaContestDto {
  import opened Wrappers

  /** Room lifecycle states as the store holds them (MegaContestRoomState). There is no
      "completed" state: a room that has played its last round stays in GameStart. */
  const AcceptJoining: int := 1
  const PrestartingConfig: int := 2
  const GameStart: int := 3
  const Cancelled: int := 4

  /** The pause between the end of a round's play time and the next round, in milliseconds. */
  const NextRoundBufferTime: int := 30000

  /** A fresh identifier drawn from an ObjectId generator; only distinctness matters here. */
  type ObjectId = nat

  /** The contest definition (MegaContestData), restricted to the fields this code reads or
      writes. `contestStart` is in seconds in the cache and in milliseconds once listed. */
  datatype Contest = Contest(
    cid: string,
    cn: string,
    tt: int,                  // seats per game
    duration: int,            // play time of one round, seconds
    noOfRound: int,
    contestStart: int,
    waitingTime: int,         // milliseconds between contestStart and the first game
    gameStartTime: int,
    maxUsers: int,
    isXFac: bool,
    isTournamentContest: bool,
    totalJoined: int)

  /** A tournament room (MegaContestRoomData), one per contest and time slot. */
  datatype Room = Room(
    id: ObjectId,
    contestId: string,
    joinTime: int,
    gameStartTime: int,
    state: int,
    capacity: int,
    noOfRounds: int,
    gameTimeInMs: int,
    currentRound: int,
    nextRoundTime: int,
    maxUser: int)

  /** The matchmaking tier (GamePriority): opponents from the xFac lookup first, or plain grouping. */
  datatype GamePriority = XFacFirst | XFacOff

  /** The ticket's metadata bag: a plain seat, or a seat matched to an xFac opponent. */
  datatype TicketMeta =
    | Standard(gameConfig: GamePriority, nextRoundIn: int)
    | XFacMatch(gameConfig: GamePriority, xFacId: string, xFacLevel: int, xFacMid: int,
                xFacLogId: string, nextRoundIn: int)

  /** A game ticket (MegaGameTicketData): the seat `playerPos` of game `gameId` in one round. */
  datatype Ticket = Ticket(
    gameId: ObjectId,
    capacity: int,
    serverIp: string,
    playerPos: int,
    contestId: string,
    timeSlot: int,
    gameServerTimeoutIn: int,
    gamePlayTime: int,
    round: int,
    metaData: TicketMeta)

  /** What the xFac lookup answers for a player; `userId` is empty when no opponent was found. */
  datatype XFacData = XFacData(userId: Option<string>, xFacLevel: int, userMid: int, xFacLogId: string)

  /** The caller of a request: `id` keys the active-user records, `did` the joined set and tickets. */
  datatype User = User(id: string, did: string, mid: int, name: string)

  datatype ErrorCode = Ok | Default | ServerMaintenance | Exception

  /** BaseHttpResponse: a payload, a message and a code. */
  datatype Response<+T> = Response(data: Option<T>, message: Option<string>, code: ErrorCode)

  /** A failure answer with no payload and the default error code. */
  function Rejection<T>(message: string): Response<T> {
    Response(None, Some(message), Default)
  }

  /** One entry of the join-counter broadcast. */
  datatype CounterDelta = CounterDelta(contestId: string, playerJoined: int)
}
