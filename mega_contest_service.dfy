/** The tournament service (MegaContestService): subscription, room creation, the pre-start
    configuration that cancels a thin room or seats its players, the round progression, the
    presence check that hands out game tickets, and the join-counter broadcast.

    The clock is a parameter of each operation that reads it. Armed timers are the `timers`
    list and `Fire` runs one of them. Fresh ObjectIds come from the counter `nextId`. The user
    service's active-user records and saved tickets are fields, and its `joinGame` calls are
    recorded in `joinGameCalls`. The xFac lookup, the balance deduction and the relational
    store's prize-breakup answer are parameters. */
module MegaContestService {
  import opened Wrappers
  import opened JsNumber
  import opened MegaContestDto
  import opened MegaContestRepo
  import opened MegaContestMatchmaking

  /** A follow-up step armed with `setTimeout`, with the delay (ms) it was armed with. */
  datatype Timer =
    | PreStart(room: Room, delay: int)
    | NextRound(prevRound: int, room: Room, contest: Contest, delay: int)
    | Counters(prevData: Option<map<string, int>>, delay: int)

  /** What the step a timer ran answered: preStartContestConfig's outcome and the joined
      listing it used, startNextRound's winner listing, or sendCounters' changed contests. */
  datatype StepResult =
    | Configured(outcome: PreStartOutcome, joined: seq<string>)
    | Advanced(winners: seq<string>)
    | CountersChecked(changed: seq<string>)

  /** The pause between two join-counter broadcasts, in milliseconds. */
  const CounterInterval: int := 2000

  /** A subscription answer: the room, with the game server's address once the join succeeded. */
  datatype Subscription = Subscription(room: Room, serverIp: Option<string>)

  datatype PrizeAnswer = PrizeAnswer(contest: Option<Contest>, breakup: seq<PrizeRow>)

  /** How a pre-start configuration ended. `Aborted` is a run that failed on the missing
      contest definition part way through. */
  datatype PreStartOutcome = RoomCancelled | RoomStarted | Aborted

  /** The room `createContestRoom` builds for a contest. */
  function NewRoom(contest: Contest, id: ObjectId): (r: Room)
    ensures r.state == AcceptJoining && r.currentRound == 1
    ensures r.gameTimeInMs == contest.duration * 1000
    ensures r.nextRoundTime == contest.gameStartTime + NextRoundBufferTime
    ensures RoomKeyOf(r) == RoomKey(contest.cid, contest.gameStartTime)
  {
    Room(id, contest.cid, contest.contestStart, contest.gameStartTime, AcceptJoining, contest.tt,
         contest.noOfRound, contest.duration * 1000, 1, contest.gameStartTime + NextRoundBufferTime,
         contest.maxUsers)
  }

  /** The room subToContest goes on with: the one already filed for the contest's start, else
      a new one, unless the start is already reached. */
  function RoomStepResult(found: Option<Room>, contest: Contest, now: int, id: ObjectId): (r: Result<Room, string>)
    ensures r.Success? && found.Some? ==> r.value == found.value
    ensures r.Success? && found.None? ==> r.value.state == AcceptJoining
  {
    if found.Some? then Success(found.value)
    else if contest.gameStartTime - now <= 0 then Failure("Time over")
    else Success(NewRoom(contest, id))
  }

  /** The ids, timers and room hashes after the room step of subToContest: a filed room changes
      nothing; otherwise the new room is written (even when it is too late) and the pre-start
      timer is armed for the time left. */
  predicate RoomStepState(found: Option<Room>, contest: Contest, now: int,
                          id0: ObjectId, timers0: seq<Timer>, rooms0: map<RoomKey, RoomHash>,
                          id1: ObjectId, timers1: seq<Timer>, rooms1: map<RoomKey, RoomHash>)
  {
    if found.Some? then id1 == id0 && timers1 == timers0 && rooms1 == rooms0
    else
      var room := NewRoom(contest, id0);
      && id1 == id0 + 1
      && rooms1 == rooms0[RoomKeyOf(room) := Stored(room)]
      && timers1 == if contest.gameStartTime - now <= 0 then timers0 else timers0 + [PreStart(room, contest.gameStartTime - now)]
  }

  /** `totalPlayerJoined.length / room.maxUser * 100 < 50` on IEEE doubles. A room with no
      maximum divides by zero (NaN or Infinity), which is never below 50. */
  predicate FillBelowHalf(joined: nat, maxUser: int) {
    maxUser != 0 && (joined as real / maxUser as real) * 100.0 < 50.0
  }

  /** The fill check on rooms with a positive maximum: below half, in whole numbers. */
  lemma FillBelowHalfIff(joined: nat, maxUser: int)
    requires maxUser > 0
    ensures FillBelowHalf(joined, maxUser) <==> 2 * joined < maxUser
  {
    var m, j := maxUser as real, joined as real;
    var q := j / m;
    assert q * m == j;
    assert q * 100.0 * m == 100.0 * (q * m);
    ScaleLess(q * 100.0, 50.0, m);
    assert 2 * joined < maxUser <==> 100.0 * j < 50.0 * m;
  }

  lemma ScaleLess(a: real, b: real, c: real)
    requires c > 0.0
    ensures a < b <==> a * c < b * c
  {
  }

  /** The number of leading entries that go to the xFac-first tier. */
  function XFacCount(n: nat, maxUser: int): (k: nat)
    ensures k <= n
    ensures maxUser - n <= 0 ==> k == 0
    ensures maxUser - n > 0 ==> k == if maxUser - n < n then maxUser - n else n
  {
    if maxUser - n <= 0 then 0 else if maxUser - n < n then maxUser - n else n
  }

  function XFacShare(joined: seq<string>, maxUser: int): seq<string> {
    joined[..XFacCount(|joined|, maxUser)]
  }

  function PlainShare(joined: seq<string>, maxUser: int): seq<string> {
    joined[XFacCount(|joined|, maxUser)..]
  }

  /** The two tiers split the joined list: the xFac tier gets the first `maxUser - n` entries
      (when that is positive), the plain tier the rest, and together they are the whole list. */
  lemma SharesPartition(joined: seq<string>, maxUser: int)
    ensures XFacShare(joined, maxUser) + PlainShare(joined, maxUser) == joined
    ensures maxUser - |joined| <= 0 ==> XFacShare(joined, maxUser) == [] && PlainShare(joined, maxUser) == joined
    ensures maxUser - |joined| >= |joined| ==> XFacShare(joined, maxUser) == joined && PlainShare(joined, maxUser) == []
  {
  }

  /** preStartContestConfig ends, whichever order the joined set `members` is listed in: the
      room has seats, nobody joined, the room is cancelled for low joining, or every member has
      an xFac opponent and the step never reaches a plain seat of a room without seats. With a
      listed contest that means everyone fits in the free places (the plain share is empty);
      without one, the first xFac ticket stops the step, so some place must be free. */
  predicate SeatingEnds(room: Room, contest: Option<Contest>, members: set<string>, xfac: map<string, XFacData>) {
    || room.capacity > 0 || members == {} || FillBelowHalf(|members|, room.maxUser)
    || ((forall p :: p in members ==> HasXFac(LookupXFac(xfac, p))) &&
        if contest.None? then room.maxUser - |members| > 0 else room.maxUser - |members| >= |members|)
  }

  /** With a listed contest and a room that is not cancelled, the seating of any listing of the
      members ends exactly when both shares can be seated. */
  lemma SeatingEndsOnShares(room: Room, contest: Contest, members: set<string>, joined: seq<string>,
                            xfac: map<string, XFacData>, envX: TicketEnv, envP: TicketEnv)
    requires NoDup(joined) && forall p :: p in joined <==> p in members
    requires !FillBelowHalf(|members|, room.maxUser)
    requires envX.room == room && envP.room == room
    ensures SeatingEnds(room, Some(contest), members, xfac) <==>
      Seatable(envX, XFacFirst, XFacShare(joined, room.maxUser), xfac, 0) &&
      Seatable(envP, XFacOff, PlainShare(joined, room.maxUser), xfac, 0)
  {
    NoDupCardinality(joined, members);
    if room.capacity <= 0 && members != {} {
      if SeatingEnds(room, Some(contest), members, xfac) {
        EndsThenSeatable(room, members, joined, xfac, envX, envP);
      }
      if Seatable(envX, XFacFirst, XFacShare(joined, room.maxUser), xfac, 0) &&
         Seatable(envP, XFacOff, PlainShare(joined, room.maxUser), xfac, 0) {
        SeatableThenEnds(room, members, joined, xfac, envX, envP);
      }
    }
  }

  /** The seating condition, read forwards: everyone is in the xFac share and every entry of it
      finds an opponent. */
  lemma EndsThenSeatable(room: Room, members: set<string>, joined: seq<string>,
                         xfac: map<string, XFacData>, envX: TicketEnv, envP: TicketEnv)
    requires forall p :: p in joined <==> p in members
    requires |members| == |joined| && room.capacity <= 0 && members != {} && !FillBelowHalf(|members|, room.maxUser)
    requires forall p :: p in members ==> HasXFac(LookupXFac(xfac, p))
    requires room.maxUser - |members| >= |members|
    requires envX.room == room && envP.room == room
    ensures Seatable(envX, XFacFirst, XFacShare(joined, room.maxUser), xfac, 0)
    ensures Seatable(envP, XFacOff, PlainShare(joined, room.maxUser), xfac, 0)
  {
    SharesPartition(joined, room.maxUser);
    var xs := XFacShare(joined, room.maxUser);
    forall e | 0 <= e < |xs|
      ensures SingleSeat(XFacFirst, xs, xfac, e)
    {
      assert xs[e] in members;
    }
  }

  /** The seating condition, read backwards: a room without seats has an empty plain share, so
      the xFac share is everyone and each of them found an opponent. */
  lemma SeatableThenEnds(room: Room, members: set<string>, joined: seq<string>,
                         xfac: map<string, XFacData>, envX: TicketEnv, envP: TicketEnv)
    requires forall p :: p in joined <==> p in members
    requires |members| == |joined| && room.capacity <= 0 && members != {}
    requires envX.room == room && envP.room == room
    requires Seatable(envX, XFacFirst, XFacShare(joined, room.maxUser), xfac, 0)
    requires Seatable(envP, XFacOff, PlainShare(joined, room.maxUser), xfac, 0)
    ensures forall p :: p in members ==> HasXFac(LookupXFac(xfac, p))
    ensures room.maxUser - |members| >= |members|
  {
    SharesPartition(joined, room.maxUser);
    var xs, ps := XFacShare(joined, room.maxUser), PlainShare(joined, room.maxUser);
    PlainTierNeedsSeats(envP, ps, xfac);
    assert xs == joined;
    forall p | p in members
      ensures HasXFac(LookupXFac(xfac, p))
    {
      var e :| 0 <= e < |joined| && joined[e] == p;
      assert SingleSeat(XFacFirst, xs, xfac, e);
    }
  }

  /** The per-round ticket hash after `generateGameTickets` stored a dictionary: merged in when
      the dictionary has a key, untouched otherwise. */
  function StoreTickets(ut: map<TicketKey, map<string, Ticket>>, key: TicketKey, dict: map<string, Ticket>): map<TicketKey, map<string, Ticket>> {
    if dict != map[] then ut[key := Get(ut, key).GetOr(map[]) + dict] else ut
  }

  /** An empty dictionary is never stored and a non-empty one is merged over the old hash. */
  lemma StoreTicketsMerges(ut: map<TicketKey, map<string, Ticket>>, key: TicketKey, dict: map<string, Ticket>)
    ensures dict == map[] ==> StoreTickets(ut, key, dict) == ut
    ensures dict != map[] ==>
      && key in StoreTickets(ut, key, dict)
      && (forall p :: p in dict ==> p in StoreTickets(ut, key, dict)[key] && StoreTickets(ut, key, dict)[key][p] == dict[p])
      && (forall p :: p in Get(ut, key).GetOr(map[]) && p !in dict ==> StoreTickets(ut, key, dict)[key][p] == ut[key][p])
  {
    if dict != map[] {
      var p :| p in dict;
      assert p in dict.Keys;
    }
  }

  /** After `generateGameTickets` stored its dictionary, every player it was given has the
      ticket the dictionary gave them in the round's hash. */
  lemma SeatedPlayersHaveTickets(env: TicketEnv, tier: GamePriority, players: seq<string>, xfac: map<string, XFacData>,
                                 gameId: ObjectId, ut: map<TicketKey, map<string, Ticket>>, key: TicketKey)
    requires Seatable(env, tier, players, xfac, 0)
    ensures var dict := Apply(TierWrites(env, tier, players, xfac, 0, gameId));
      var ut' := StoreTickets(ut, key, dict);
      forall p :: p in players ==> p in dict && key in ut' && p in ut'[key] && ut'[key][p] == dict[p]
  {
    var dict := Apply(TierWrites(env, tier, players, xfac, 0, gameId));
    DictionaryKeys(env, tier, players, xfac, gameId);
    StoreTicketsMerges(ut, key, dict);
    if players != [] {
      assert players[0] in players;
    }
  }

  /** A ticket stored earlier for the same round stays readable unless the new dictionary
      overrides its player. */
  lemma StoredTicketsPersist(ut: map<TicketKey, map<string, Ticket>>, key: TicketKey, dict: map<string, Ticket>, p: string)
    requires key in ut && p in ut[key]
    ensures key in StoreTickets(ut, key, dict) && p in StoreTickets(ut, key, dict)[key]
    ensures p !in dict ==> StoreTickets(ut, key, dict)[key][p] == ut[key][p]
  {
    StoreTicketsMerges(ut, key, dict);
  }

  /** Seating two shares one after the other under one ticket key leaves every player of
      either share holding a ticket there: the first share's tickets survive the second store,
      which only adds the second share's. */
  lemma BothSharesHold(envX: TicketEnv, envP: TicketEnv, xs: seq<string>, ps: seq<string>, xfac: map<string, XFacData>,
                       id0: ObjectId, mid: ObjectId, ut0: map<TicketKey, map<string, Ticket>>, key: TicketKey,
                       ut1: map<TicketKey, map<string, Ticket>>)
    requires Seatable(envX, XFacFirst, xs, xfac, 0) && Seatable(envP, XFacOff, ps, xfac, 0)
    requires ut1 == StoreTickets(StoreTickets(ut0, key, Apply(TierWrites(envX, XFacFirst, xs, xfac, 0, id0))), key,
                                 Apply(TierWrites(envP, XFacOff, ps, xfac, 0, mid)))
    ensures forall p :: p in xs + ps ==> key in ut1 && p in ut1[key]
  {
    var d2 := Apply(TierWrites(envP, XFacOff, ps, xfac, 0, mid));
    var utMid := StoreTickets(ut0, key, Apply(TierWrites(envX, XFacFirst, xs, xfac, 0, id0)));
    SeatedPlayersHaveTickets(envX, XFacFirst, xs, xfac, id0, ut0, key);
    SeatedPlayersHaveTickets(envP, XFacOff, ps, xfac, mid, utMid, key);
    forall p | p in xs + ps
      ensures key in ut1 && p in ut1[key]
    {
      if p !in ps {
        StoredTicketsPersist(utMid, key, d2, p);
      }
    }
  }

  /** `getContestThatChanged`: a key of the new snapshot is reported when there is no old
      snapshot, or the old one has no value for it, or a different value. */
  predicate Changed(prevData: Option<map<string, int>>, newData: Option<map<string, int>>, cid: string) {
    newData.Some? && cid in newData.value &&
    (prevData.None? || cid !in prevData.value || prevData.value[cid] != newData.value[cid])
  }

  /** Two equal snapshots report nothing; a key only in the old snapshot is never reported. */
  lemma ChangedProperties(prevData: map<string, int>, newData: map<string, int>, cid: string)
    ensures prevData == newData ==> !Changed(Some(prevData), Some(newData), cid)
    ensures cid !in newData ==> !Changed(Some(prevData), Some(newData), cid)
    ensures cid in newData && cid !in prevData ==> Changed(Some(prevData), Some(newData), cid)
    ensures Changed(None, Some(newData), cid) <==> cid in newData
  {
  }

  /** The broadcast entries for the changed keys, in the order the keys were listed. */
  function Deltas(changed: seq<string>, newData: map<string, int>): (d: seq<CounterDelta>)
    requires forall k :: 0 <= k < |changed| ==> changed[k] in newData
    ensures |d| == |changed|
    ensures forall k :: 0 <= k < |d| ==> d[k].contestId == changed[k] && d[k].playerJoined == newData[changed[k]]
  {
    seq(|changed|, k requires 0 <= k < |changed| => CounterDelta(changed[k], newData[changed[k]]))
  }

  /** One more seat of a game: both the call log and the dictionary grow by seat `j`. */
  lemma SlicesGrow(calls: seq<Assignment>, w: seq<Assignment>, g: seq<Assignment>, j: nat)
    requires j < |g|
    ensures calls + g[..j + 1] == (calls + g[..j]) + [g[j]]
    ensures Apply(w + g[..j + 1]) == Apply(w + g[..j])[g[j].key := g[j].ticket]
  {
    assert g[..j + 1] == g[..j] + [g[j]];
    assert w + g[..j + 1] == (w + g[..j]) + [g[j]];
    ApplySnoc(w + g[..j], g[j]);
  }

  /** The ticket markPresence hands out: the player's own ticket, else the tail of the common
      queue, else a failure. */
  function ChosenTicket(own: Option<Ticket>, queue: seq<Ticket>): (r: Result<Ticket, string>)
    ensures own.Some? ==> r == Success(own.value)
    ensures own.None? ==> (r.Failure? <==> queue == [])
    ensures own.None? && queue != [] ==> r == Success(queue[|queue| - 1]) && RPop(queue).0 == Some(r.value)
  {
    if own.Some? then Success(own.value)
    else if queue == [] then Failure("Unable to get ticket")
    else Success(queue[|queue| - 1])
  }

  /** The ticket queues after that choice: only a ticket taken from the common queue leaves it. */
  function QueuesAfterChoice(own: Option<Ticket>, queues: map<TicketKey, seq<Ticket>>, key: TicketKey): map<TicketKey, seq<Ticket>> {
    var q := Get(queues, key).GetOr([]);
    if own.Some? || q == [] then queues else queues[key := RPop(q).1]
  }

  class Service {
    const repo: Store
    /** `process.env.GAME_SERVER_IP`, the address every ticket and subscription names. */
    const gameServerIp: string
    /** GAMESERVER_TIMEOUT of the contest-room service. */
    const gameServerTimeout: int
    var nextId: ObjectId
    var timers: seq<Timer>
    /** Every `joinGame(player, ticket)` call made, in order. */
    var joinGameCalls: seq<Assignment>
    /** Every counter broadcast emitted, in order. */
    var broadcasts: seq<Response<seq<CounterDelta>>>
    /** The user service's active-user records: a room key and a user id. */
    var activeUsers: set<(RoomKey, string)>
    /** The user service's saved ticket of each user (`saveAssignedTicket`). */
    var assignedTickets: map<string, Ticket>

    constructor (repo: Store, gameServerIp: string, gameServerTimeout: int)
      ensures this.repo == repo && this.gameServerIp == gameServerIp && this.gameServerTimeout == gameServerTimeout
      ensures nextId == 0 && timers == [] && joinGameCalls == [] && broadcasts == []
      ensures activeUsers == {} && assignedTickets == map[]
    {
      this.repo := repo;
      this.gameServerIp := gameServerIp;
      this.gameServerTimeout := gameServerTimeout;
      nextId := 0;
      timers := [];
      joinGameCalls := [];
      broadcasts := [];
      activeUsers := {};
      assignedTickets := map[];
    }

    /** What every ticket of one `generateGameTickets` call shares. */
    function Env(room: Room, contest: Contest, round: int, now: int): TicketEnv {
      TicketEnv(room, contest.duration, round, now, gameServerIp, gameServerTimeout)
    }

    /** What the joining step of subToContest answers and leaves in the joined sets and the
        join counters, given the room's members and both maps before it. */
    predicate JoinOutcome(members: set<string>, joined0: map<RoomKey, set<string>>, counters0: map<string, int>,
                          contestId: string, room: Room, user: User, balanceDeducted: bool,
                          resp: Response<Subscription>, joined1: map<RoomKey, set<string>>, counters1: map<string, int>)
    {
      if room.state != AcceptJoining then
        resp == Rejection("Invalid room state") && joined1 == joined0 && counters1 == counters0
      else if !balanceDeducted then
        resp == Rejection("Failed to deduct money for contest") && joined1 == joined0 && counters1 == counters0
      else
        && joined1 == joined0[RoomKey(contestId, room.gameStartTime) := members + {user.did}]
        && if user.did in members then
             resp == Response(Some(Subscription(room, None)), Some("User failed to join in this contest"), Ok) &&
             counters1 == counters0
           else
             resp == Response(Some(Subscription(room, Some(gameServerIp))), None, Ok) &&
             counters1 == counters0[room.contestId := Get(counters0, room.contestId).GetOr(0) + 1]
    }

    /** What the seating step of preStartContestConfig leaves behind: the xFac-first share's
        seats, then the plain share's, in the call log, in the game-id counter and in round 1's
        ticket hash. */
    predicate Seated(room: Room, contest: Contest, joined: seq<string>, xfac: map<string, XFacData>,
                           xfacNow: int, plainNow: int,
                           id0: ObjectId, calls0: seq<Assignment>, ut0: map<TicketKey, map<string, Ticket>>,
                           id1: ObjectId, calls1: seq<Assignment>, ut1: map<TicketKey, map<string, Ticket>>)
    {
      var envX := Env(room, contest, 1, xfacNow);
      var envP := Env(room, contest, 1, plainNow);
      var xs := XFacShare(joined, room.maxUser);
      var ps := PlainShare(joined, room.maxUser);
      && Seatable(envX, XFacFirst, xs, xfac, 0)
      && Seatable(envP, XFacOff, ps, xfac, 0)
      && var w1 := TierWrites(envX, XFacFirst, xs, xfac, 0, id0);
         var mid := id0 + Games(envX, XFacFirst, xs, xfac, 0);
         var w2 := TierWrites(envP, XFacOff, ps, xfac, 0, mid);
         var tkey := TicketKey(room.contestId, room.gameStartTime, 1);
         && calls1 == calls0 + w1 + w2
         && id1 == mid + Games(envP, XFacOff, ps, xfac, 0)
         && ut1 == StoreTickets(StoreTickets(ut0, tkey, Apply(w1)), tkey, Apply(w2))
    }

    /** A started room: seated as above and the end of round 1 armed one game duration plus
        the buffer later. */
    predicate Started(room: Room, contest: Contest, joined: seq<string>, xfac: map<string, XFacData>,
                      xfacNow: int, plainNow: int,
                      id0: ObjectId, calls0: seq<Assignment>, ut0: map<TicketKey, map<string, Ticket>>, timers0: seq<Timer>,
                      id1: ObjectId, calls1: seq<Assignment>, ut1: map<TicketKey, map<string, Ticket>>, timers1: seq<Timer>)
    {
      && Seated(room, contest, joined, xfac, xfacNow, plainNow, id0, calls0, ut0, id1, calls1, ut1)
      && timers1 == timers0 + [NextRound(1, room, contest, contest.duration * 1000 + NextRoundBufferTime)]
    }

    /** What startNextRound leaves behind when a round follows: the winners seated for the new
        round in the plain tier, the room's round and next-round time written, and the end of
        the new round armed. */
    predicate NextRoundState(prevRound: int, room: Room, contest: Contest, winners: seq<string>, now: int, later: int,
                             id0: ObjectId, calls0: seq<Assignment>, ut0: map<TicketKey, map<string, Ticket>>,
                             rooms0: map<RoomKey, RoomHash>, timers0: seq<Timer>,
                             id1: ObjectId, calls1: seq<Assignment>, ut1: map<TicketKey, map<string, Ticket>>,
                             rooms1: map<RoomKey, RoomHash>, timers1: seq<Timer>)
    {
      var round := prevRound + 1;
      var env := Env(room, contest, round, now);
      var key := RoomKey(room.contestId, room.gameStartTime);
      var gap := contest.duration * 1000 + NextRoundBufferTime;
      && Seatable(env, XFacOff, winners, map[], 0)
      && var w := TierWrites(env, XFacOff, winners, map[], 0, id0);
         && calls1 == calls0 + w
         && id1 == id0 + Games(env, XFacOff, winners, map[], 0)
         && ut1 == StoreTickets(ut0, TicketKey(room.contestId, room.gameStartTime, round), Apply(w))
         && rooms1 == rooms0[key := MergePatch(Get(rooms0, key), map[CurrentRound := round, NextRoundTime := later + gap])]
         && timers1 == timers0 + [NextRound(round, room, contest, gap)]
    }

    /** Once a room has started, every joined player holds a round-1 ticket: the xFac-first
        share's players from the first dictionary, which the second one leaves in place, and
        the plain share's from the second. */
    lemma StartedRoomSeatsEveryone(room: Room, contest: Contest, joined: seq<string>, xfac: map<string, XFacData>,
                                   xfacNow: int, plainNow: int,
                                   id0: ObjectId, calls0: seq<Assignment>, ut0: map<TicketKey, map<string, Ticket>>,
                                   id1: ObjectId, calls1: seq<Assignment>, ut1: map<TicketKey, map<string, Ticket>>)
      requires Seated(room, contest, joined, xfac, xfacNow, plainNow, id0, calls0, ut0, id1, calls1, ut1)
      ensures var key := TicketKey(room.contestId, room.gameStartTime, 1);
        forall p :: p in joined ==> key in ut1 && p in ut1[key]
    {
      var envX, envP := Env(room, contest, 1, xfacNow), Env(room, contest, 1, plainNow);
      var xs, ps := XFacShare(joined, room.maxUser), PlainShare(joined, room.maxUser);
      SharesPartition(joined, room.maxUser);
      BothSharesHold(envX, envP, xs, ps, xfac, id0, id0 + Games(envX, XFacFirst, xs, xfac, 0), ut0,
                     TicketKey(room.contestId, room.gameStartTime, 1), ut1);
    }

    /** The joining step hands out the game server's address exactly when it added the player,
        and then the player is in the room's joined set. */
    lemma JoinedWhenAddressed(members: set<string>, joined0: map<RoomKey, set<string>>, counters0: map<string, int>,
                              contestId: string, room: Room, user: User, balanceDeducted: bool,
                              resp: Response<Subscription>, joined1: map<RoomKey, set<string>>, counters1: map<string, int>)
      requires JoinOutcome(members, joined0, counters0, contestId, room, user, balanceDeducted, resp, joined1, counters1)
      ensures (resp.data.Some? && resp.data.value.serverIp.Some?) <==>
              (room.state == AcceptJoining && balanceDeducted && user.did !in members)
      ensures resp.data.Some? ==> user.did in joined1[RoomKey(contestId, room.gameStartTime)]
      ensures resp.data.Some? <==> resp.code == Ok
    {
    }

    /** `new Mongoose.Types.ObjectId()`: an id never handed out before. */
    method FreshId() returns (id: ObjectId)
      modifies this`nextId
      ensures id == old(nextId) && nextId == old(nextId) + 1
    {
      id := nextId;
      nextId := nextId + 1;
    }

    method JoinGame(a: Assignment)
      modifies this`joinGameCalls
      ensures joinGameCalls == old(joinGameCalls) + [a]
    {
      joinGameCalls := joinGameCalls + [a];
    }

    /** getContestList */
    method GetContestList(userMid: int) returns (list: seq<Contest>)
      ensures list == ContestList(repo.contestCache, repo.counters)
    {
      list := repo.GetContestList();
    }

    /** One pass of the outer loop from entry `i` under game id `gameId`: a single seat 0 with
        the opponent's fields when the xFac-first lookup finds one, otherwise the inner loop's
        `capacity` seats, each keyed by `playerJoined[i]` as `i` counts up. */
    method SeatTurn(env: TicketEnv, tier: GamePriority, players: seq<string>, xfac: map<string, XFacData>,
                    i: nat, gameId: ObjectId, dict: map<string, Ticket>, ghost w: seq<Assignment>)
      returns (dict': map<string, Ticket>, i': nat)
      requires i < |players| && Seatable(env, tier, players, xfac, i)
      requires dict == Apply(w)
      modifies this`joinGameCalls
      ensures i' == i + GroupSize(env, tier, players, xfac, i)
      ensures joinGameCalls == old(joinGameCalls) + GroupSeats(env, tier, players, xfac, i, gameId)
      ensures dict' == Apply(w + GroupSeats(env, tier, players, xfac, i, gameId))
    {
      var xfacData := if tier == XFacFirst then LookupXFac(xfac, players[i]) else XFacData(None, 0, 0, "");
      if tier == XFacFirst && HasXFac(xfacData) {
        dict', i' := SeatXFacGame(env, tier, players, xfac, i, gameId, dict, w);
      } else {
        dict', i' := SeatFullGame(env, tier, players, xfac, i, gameId, dict, w);
      }
    }

    /** The xFac branch: seat 0 of a game of its own, carrying the opponent's fields. */
    method SeatXFacGame(env: TicketEnv, tier: GamePriority, players: seq<string>, xfac: map<string, XFacData>,
                        i: nat, gameId: ObjectId, dict: map<string, Ticket>, ghost w: seq<Assignment>)
      returns (dict': map<string, Ticket>, i': nat)
      requires i < |players| && SingleSeat(tier, players, xfac, i)
      requires dict == Apply(w)
      modifies this`joinGameCalls
      ensures i' == i + GroupSize(env, tier, players, xfac, i)
      ensures joinGameCalls == old(joinGameCalls) + GroupSeats(env, tier, players, xfac, i, gameId)
      ensures dict' == Apply(w + GroupSeats(env, tier, players, xfac, i, gameId))
    {
      var xfacData := LookupXFac(xfac, players[i]);
      var ticket := SeatTicket(env, gameId, 0, XFacMeta(env, xfacData));
      var a := Assignment(players[i], ticket);
      assert GroupSeats(env, tier, players, xfac, i, gameId) == [a];
      dict' := dict[players[i] := ticket];
      JoinGame(a);
      ApplySnoc(w, a);
      i' := i + 1;
    }

    /** The plain branch: the inner loop over the `capacity` seats of one game. */
    method SeatFullGame(env: TicketEnv, tier: GamePriority, players: seq<string>, xfac: map<string, XFacData>,
                        i: nat, gameId: ObjectId, dict: map<string, Ticket>, ghost w: seq<Assignment>)
      returns (dict': map<string, Ticket>, i': nat)
      requires i < |players| && Seatable(env, tier, players, xfac, i) && !SingleSeat(tier, players, xfac, i)
      requires dict == Apply(w)
      modifies this`joinGameCalls
      ensures i' == i + GroupSize(env, tier, players, xfac, i)
      ensures joinGameCalls == old(joinGameCalls) + GroupSeats(env, tier, players, xfac, i, gameId)
      ensures dict' == Apply(w + GroupSeats(env, tier, players, xfac, i, gameId))
    {
      ghost var g := GroupSeats(env, tier, players, xfac, i, gameId);
      assert env.room.capacity > 0 && |g| == env.room.capacity;
      dict', i' := dict, i;
      var j := 0;
      assert w + g[..0] == w && joinGameCalls + g[..0] == joinGameCalls;
      while j < env.room.capacity
        invariant 0 <= j <= |g| && i' == i + j
        invariant joinGameCalls == old(joinGameCalls) + g[..j]
        invariant dict' == Apply(w + g[..j])
      {
        var ticket := SeatTicket(env, gameId, j, Standard(tier, NextRoundIn(env)));
        var a := Assignment(KeyAt(players, i'), ticket);
        assert a == g[j];
        SlicesGrow(old(joinGameCalls), w, g, j);
        dict' := dict'[a.key := ticket];
        JoinGame(a);
        i' := i' + 1;
        j := j + 1;
      }
      assert g[..j] == g;
    }

    /** generateGameTickets: the seats of `players` as the two nested loops fill them, each one
        written to the player dictionary and sent to `joinGame`; the dictionary is stored under
        the round's key when it has an entry. `now` is the clock reading taken on entry. */
    method GenerateGameTickets(tier: GamePriority, players: seq<string>, room: Room, contest: Contest,
                               xfac: map<string, XFacData>, now: int, round: int := 1)
      returns (dict: map<string, Ticket>)
      requires Seatable(Env(room, contest, round, now), tier, players, xfac, 0)
      modifies this`nextId, this`joinGameCalls, repo`userTickets
      ensures var env := Env(room, contest, round, now);
        var w := TierWrites(env, tier, players, xfac, 0, old(nextId));
        && dict == Apply(w)
        && joinGameCalls == old(joinGameCalls) + w
        && nextId == old(nextId) + Games(env, tier, players, xfac, 0)
      ensures repo.userTickets == StoreTickets(old(repo.userTickets), TicketKey(room.contestId, room.gameStartTime, round), dict)
    {
      var userSpecificTicket := SeatAll(Env(room, contest, round, now), tier, players, xfac);
      if |userSpecificTicket| > 0 {
        repo.AddUserSpecificTickets(room.contestId, room.gameStartTime, userSpecificTicket, round);
      }
      dict := userSpecificTicket;
    }

    /** The outer loop of generateGameTickets. The xFac-first and plain loops have the same
        shape and are one loop here, the lookup deciding the turn only in the xFac-first tier. */
    method SeatAll(env: TicketEnv, tier: GamePriority, players: seq<string>, xfac: map<string, XFacData>)
      returns (dict: map<string, Ticket>)
      requires Seatable(env, tier, players, xfac, 0)
      modifies this`nextId, this`joinGameCalls
      ensures var w := TierWrites(env, tier, players, xfac, 0, old(nextId));
        && dict == Apply(w)
        && joinGameCalls == old(joinGameCalls) + w
        && nextId == old(nextId) + Games(env, tier, players, xfac, 0)
    {
      ghost var id0, calls0 := nextId, joinGameCalls;
      ghost var total := TierWrites(env, tier, players, xfac, 0, id0);
      ghost var w: seq<Assignment> := [];
      dict := map[];
      var i: nat := 0;
      while i < |players|
        invariant Seatable(env, tier, players, xfac, i)
        invariant w + TierWrites(env, tier, players, xfac, i, nextId) == total
        invariant joinGameCalls == calls0 + w
        invariant dict == Apply(w)
        invariant nextId + Games(env, tier, players, xfac, i) == id0 + Games(env, tier, players, xfac, 0)
        decreases |players| - i
      {
        dict, i, w := SeatNextTurn(env, tier, players, xfac, i, dict, w, total, calls0);
      }
      TierDone(env, tier, players, xfac, i, nextId);
      assert w == total;
    }

    /** One turn of the outer loop: a fresh game id, then the seats of the turn starting at `i`;
        `w` are the seats written so far, of the `total` the whole loop writes. */
    method SeatNextTurn(env: TicketEnv, tier: GamePriority, players: seq<string>, xfac: map<string, XFacData>,
                        i: nat, dict: map<string, Ticket>, ghost w: seq<Assignment>,
                        ghost total: seq<Assignment>, ghost calls0: seq<Assignment>)
      returns (dict': map<string, Ticket>, i': nat, ghost w': seq<Assignment>)
      requires i < |players| && Seatable(env, tier, players, xfac, i)
      requires w + TierWrites(env, tier, players, xfac, i, nextId) == total
      requires joinGameCalls == calls0 + w
      requires dict == Apply(w)
      modifies this`nextId, this`joinGameCalls
      ensures i < i' && Seatable(env, tier, players, xfac, i')
      ensures w' + TierWrites(env, tier, players, xfac, i', nextId) == total
      ensures joinGameCalls == calls0 + w'
      ensures dict' == Apply(w')
      ensures nextId + Games(env, tier, players, xfac, i') == old(nextId) + Games(env, tier, players, xfac, i)
    {
      var gameId := FreshId();
      TierProgress(env, tier, players, xfac, i, gameId, w, total);
      TurnAdvances(env, tier, players, xfac, i);
      var g := GroupSeats(env, tier, players, xfac, i, gameId);
      assert (calls0 + w) + g == calls0 + (w + g);
      dict', i' := SeatTurn(env, tier, players, xfac, i, gameId, dict, w);
      w' := w + g;
    }

    /** createContestRoom: writes a fresh room for the contest, then arms the pre-start step for
        the first game's start. A start time already reached fails with 'Time over' after the
        room was written, and arms nothing. */
    method CreateContestRoom(contest: Contest, now: int) returns (r: Result<Room, string>)
      modifies this`nextId, this`timers, repo`rooms
      ensures FiledUnderOwnKey(old(repo.rooms)) ==> FiledUnderOwnKey(repo.rooms)
      ensures var room := NewRoom(contest, old(nextId));
        && nextId == old(nextId) + 1
        && repo.rooms == old(repo.rooms)[RoomKeyOf(room) := Stored(room)]
        && (contest.gameStartTime - now <= 0 ==> r == Failure("Time over") && timers == old(timers))
        && (contest.gameStartTime - now > 0 ==>
              r == Success(room) && timers == old(timers) + [PreStart(room, contest.gameStartTime - now)])
    {
      var id := FreshId();
      var contestRoomData := NewRoom(contest, id);
      repo.CreateRoom(contestRoomData);
      var timeLeftToStart := contest.gameStartTime - now;
      if timeLeftToStart <= 0 {
        return Failure("Time over");
      }
      timers := timers + [PreStart(contestRoomData, timeLeftToStart)];
      r := Success(contestRoomData);
    }

    /** The room step of subToContest: the room already filed for the contest's start is used as
        it is; otherwise one is created for it (which fails once the start time is reached). */
    method FindOrCreateRoom(contestId: string, contest: Contest, now: int) returns (r: Result<Room, string>)
      modifies this`nextId, this`timers, repo`rooms
      ensures FiledUnderOwnKey(old(repo.rooms)) ==> FiledUnderOwnKey(repo.rooms)
      ensures var found := old(repo.SearchRoom(contestId, contest.gameStartTime));
        && r == RoomStepResult(found, contest, now, old(nextId))
        && RoomStepState(found, contest, now, old(nextId), old(timers), old(repo.rooms), nextId, timers, repo.rooms)
    {
      var contestRoom := repo.SearchRoom(contestId, contest.gameStartTime);
      if contestRoom.Some? {
        return Success(contestRoom.value);
      }
      r := CreateContestRoom(contest, now);
    }

    /** The joining step of subToContest, once a room is known: the room must accept joining and
        the entry fee must have been taken; `sadd` then answers whether the player was added, and
        only an added player bumps the contest's join counter. */
    method JoinRoom(contestId: string, room: Room, user: User, balanceDeducted: bool)
      returns (resp: Response<Subscription>)
      modifies repo`joined, repo`counters
      ensures JoinOutcome(old(repo.JoinedAt(contestId, room.gameStartTime)), old(repo.joined), old(repo.counters),
                          contestId, room, user, balanceDeducted, resp, repo.joined, repo.counters)
    {
      if room.state != AcceptJoining {
        return Rejection("Invalid room state");
      }
      if !balanceDeducted {
        return Rejection("Failed to deduct money for contest");
      }
      var joinResponse := repo.AddInContestRoom(contestId, room.gameStartTime, user.did);
      if joinResponse == 0 {
        return Response(Some(Subscription(room, None)), Some("User failed to join in this contest"), Ok);
      }
      var _ := repo.IncJoinPlayerCounter(room.contestId, 1);
      resp := Response(Some(Subscription(room, Some(gameServerIp))), None, Ok);
    }

    /** subToContest past the contest lookup: the player must not have joined the contest's room
        yet; then the room is found or created and the player joins it. */
    method EnterContest(contestId: string, contest: Contest, user: User, now: int, balanceDeducted: bool)
      returns (resp: Response<Subscription>)
      modifies this`nextId, this`timers, repo`rooms, repo`joined, repo`counters
      ensures FiledUnderOwnKey(old(repo.rooms)) ==> FiledUnderOwnKey(repo.rooms)
      ensures user.did in old(repo.JoinedAt(contest.cid, contest.gameStartTime)) ==>
        && resp == Rejection("User already joined this contest")
        && nextId == old(nextId) && timers == old(timers)
        && repo.rooms == old(repo.rooms) && repo.joined == old(repo.joined) && repo.counters == old(repo.counters)
      ensures user.did !in old(repo.JoinedAt(contest.cid, contest.gameStartTime)) ==>
        var found := old(repo.SearchRoom(contestId, contest.gameStartTime));
        var r := RoomStepResult(found, contest, now, old(nextId));
        && RoomStepState(found, contest, now, old(nextId), old(timers), old(repo.rooms), nextId, timers, repo.rooms)
        && (r.Failure? ==> resp == Rejection(r.error) && repo.joined == old(repo.joined) && repo.counters == old(repo.counters))
        && (r.Success? ==> JoinOutcome(old(repo.JoinedAt(contestId, r.value.gameStartTime)), old(repo.joined), old(repo.counters),
                                       contestId, r.value, user, balanceDeducted, resp, repo.joined, repo.counters))
    {
      if repo.ExistInContestRoom(contest.cid, contest.gameStartTime, user.did) {
        return Rejection("User already joined this contest");
      }
      var room := FindOrCreateRoom(contestId, contest, now);
      if room.Failure? {
        return Rejection(room.error);
      }
      resp := JoinRoom(contestId, room.value, user, balanceDeducted);
    }

    /** What subToContest answers and changes, from the state before the call to the state
        after it: a contest that is not listed or not yet open, or a player already in its
        room, is rejected and nothing changes; otherwise the room is found or created and the
        player joins it. */
    twostate predicate SubscribeOutcome(contestId: string, user: User, now: int, balanceDeducted: bool,
                                        new resp: Response<Subscription>)
      reads this, repo
    {
      var c := FindContest(ContestList(old(repo.contestCache), old(repo.counters)), contestId);
      if c.None? || now < c.value.contestStart || user.did in old(repo.JoinedAt(contestId, c.value.gameStartTime)) then
        && resp == Rejection(if c.None? || now < c.value.contestStart then "Contest not available"
                             else "User already joined this contest")
        && nextId == old(nextId) && timers == old(timers)
        && repo.rooms == old(repo.rooms) && repo.joined == old(repo.joined) && repo.counters == old(repo.counters)
      else
        var found := old(repo.SearchRoom(contestId, c.value.gameStartTime));
        var r := RoomStepResult(found, c.value, now, old(nextId));
        && RoomStepState(found, c.value, now, old(nextId), old(timers), old(repo.rooms), nextId, timers, repo.rooms)
        && (r.Failure? ==> resp == Rejection(r.error) && repo.joined == old(repo.joined) && repo.counters == old(repo.counters))
        && (r.Success? ==> JoinOutcome(old(repo.JoinedAt(contestId, r.value.gameStartTime)), old(repo.joined), old(repo.counters),
                                       contestId, r.value, user, balanceDeducted, resp, repo.joined, repo.counters))
    }

    /** subToContest: the contest must be listed and open, the player must not have joined its
        room yet; then the room is found or created and the player joins it. `balanceDeducted`
        is the payment service's answer. */
    method SubToContest(contestId: string, user: User, now: int, balanceDeducted: bool)
      returns (resp: Response<Subscription>)
      modifies this`nextId, this`timers, repo`rooms, repo`joined, repo`counters
      ensures FiledUnderOwnKey(old(repo.rooms)) ==> FiledUnderOwnKey(repo.rooms)
      ensures SubscribeOutcome(contestId, user, now, balanceDeducted, resp)
    {
      var contestData := repo.GetContestById(contestId);
      if contestData.None? || now < contestData.value.contestStart {
        return Rejection("Contest not available");
      }
      resp := EnterContest(contestId, contestData.value, user, now, balanceDeducted);
    }

    /** The seating step of preStartContestConfig: the xFac-first tier gets the players that fit
        in the free places (none when the room is full), the plain tier the rest, each with its
        own clock reading. */
    method SeatShares(room: Room, contest: Contest, joined: seq<string>, xfac: map<string, XFacData>,
                      xfacNow: int, plainNow: int)
      requires Seatable(Env(room, contest, 1, xfacNow), XFacFirst, XFacShare(joined, room.maxUser), xfac, 0)
      requires Seatable(Env(room, contest, 1, plainNow), XFacOff, PlainShare(joined, room.maxUser), xfac, 0)
      modifies this`nextId, this`joinGameCalls, repo`userTickets
      ensures Seated(room, contest, joined, xfac, xfacNow, plainNow, old(nextId), old(joinGameCalls),
                           old(repo.userTickets), nextId, joinGameCalls, repo.userTickets)
    {
      SharesPartition(joined, room.maxUser);
      var xs, ps := XFacShare(joined, room.maxUser), PlainShare(joined, room.maxUser);
      ghost var envX, envP := Env(room, contest, 1, xfacNow), Env(room, contest, 1, plainNow);
      ghost var tkey := TicketKey(room.contestId, room.gameStartTime, 1);
      ghost var ut0, calls0 := repo.userTickets, joinGameCalls;
      ghost var w1 := TierWrites(envX, XFacFirst, xs, xfac, 0, nextId);
      var remainingSlot := room.maxUser - |joined|;
      var xfacTickets: map<string, Ticket>;
      if remainingSlot > 0 {
        xfacTickets := GenerateGameTickets(XFacFirst, xs, room, contest, xfac, xfacNow);
      } else {
        TierDone(envX, XFacFirst, xs, xfac, 0, nextId);
        xfacTickets := map[];
        assert Apply(w1) == map[];
        assert joinGameCalls == calls0 + w1;
      }
      assert xfacTickets == Apply(w1);
      assert repo.userTickets == StoreTickets(ut0, tkey, xfacTickets);
      ghost var ut1 := repo.userTickets;
      ghost var w2 := TierWrites(envP, XFacOff, ps, xfac, 0, nextId);
      var plainTickets := GenerateGameTickets(XFacOff, ps, room, contest, xfac, plainNow);
      assert plainTickets == Apply(w2);
      assert repo.userTickets == StoreTickets(ut1, tkey, plainTickets);
    }

    /** preStartContestConfig once the contest is looked up (`None` when it is not listed). */
    method ConfigureRoom(room: Room, contest: Option<Contest>, xfac: map<string, XFacData>, xfacNow: int, plainNow: int)
      returns (outcome: PreStartOutcome, joined: seq<string>)
      requires SeatingEnds(room, contest, repo.JoinedAt(room.contestId, room.gameStartTime), xfac)
      modifies this`nextId, this`joinGameCalls, this`timers, repo`rooms, repo`userTickets
      ensures FiledUnderOwnKey(old(repo.rooms)) ==> FiledUnderOwnKey(repo.rooms)
      ensures NoDup(joined) && forall p :: p in joined <==> p in old(repo.JoinedAt(room.contestId, room.gameStartTime))
      ensures outcome == RoomCancelled <==> FillBelowHalf(|joined|, room.maxUser)
      ensures outcome == RoomStarted <==>
        !FillBelowHalf(|joined|, room.maxUser) && contest.Some?
      ensures var key := RoomKey(room.contestId, room.gameStartTime);
        var configuring := MergePatch(Get(old(repo.rooms), key), map[State := PrestartingConfig]);
        repo.rooms == old(repo.rooms)[key :=
          if outcome == RoomCancelled then MergePatch(Some(configuring), map[State := Cancelled])
          else if outcome == Aborted && joined != [] then configuring
          else MergePatch(Some(configuring), map[State := GameStart])]
      ensures outcome != RoomStarted ==>
        nextId == old(nextId) && joinGameCalls == old(joinGameCalls) && timers == old(timers) &&
        repo.userTickets == old(repo.userTickets)
      ensures outcome == RoomStarted ==>
          Started(room, contest.value, joined, xfac, xfacNow, plainNow,
                  old(nextId), old(joinGameCalls), old(repo.userTickets), old(timers),
                  nextId, joinGameCalls, repo.userTickets, timers)
    {
      repo.UpdateContestRoom(room.contestId, room.gameStartTime, map[State := PrestartingConfig]);
      joined := repo.GetPlayerJoined(room.contestId, room.gameStartTime);
      NoDupCardinality(joined, repo.JoinedAt(room.contestId, room.gameStartTime));
      if FillBelowHalf(|joined|, room.maxUser) {
        repo.UpdateContestRoom(room.contestId, room.gameStartTime, map[State := Cancelled]);
        return RoomCancelled, joined;
      }
      if contest.None? {
        if joined != [] {
          return Aborted, joined;
        }
        repo.UpdateContestRoom(room.contestId, room.gameStartTime, map[State := GameStart]);
        return Aborted, joined;
      }
      ghost var id0, calls0, ut0 := nextId, joinGameCalls, repo.userTickets;
      assert id0 == old(nextId) && calls0 == old(joinGameCalls) && ut0 == old(repo.userTickets);
      SeatingEndsOnShares(room, contest.value, repo.JoinedAt(room.contestId, room.gameStartTime), joined, xfac,
                          Env(room, contest.value, 1, xfacNow), Env(room, contest.value, 1, plainNow));
      SeatShares(room, contest.value, joined, xfac, xfacNow, plainNow);
      ghost var id1, calls1, ut1 := nextId, joinGameCalls, repo.userTickets;
      assert Seated(room, contest.value, joined, xfac, xfacNow, plainNow, id0, calls0, ut0, id1, calls1, ut1);
      repo.UpdateContestRoom(room.contestId, room.gameStartTime, map[State := GameStart]);
      timers := timers + [NextRound(1, room, contest.value, contest.value.duration * 1000 + NextRoundBufferTime)];
      assert nextId == id1 && joinGameCalls == calls1 && repo.userTickets == ut1;
      outcome := RoomStarted;
    }

    /** What preStartContestConfig answers and leaves behind, `timers0` being the pending timers
        it ran with: the listing it used is the joined set; the room is cancelled exactly when it
        is less than half full and started exactly when it is not and its contest is listed;
        the room hash records the last state reached; a room that did not start keeps its game
        ids, calls, tickets and timers, and a started one is seated and armed for round 1's end. */
    twostate predicate PreStarted(room: Room, xfac: map<string, XFacData>, xfacNow: int, plainNow: int,
                                  timers0: seq<Timer>, new outcome: PreStartOutcome, new joined: seq<string>)
      reads this`nextId, this`joinGameCalls, this`timers, repo`rooms, repo`userTickets,
            repo`joined, repo`contestCache, repo`counters
    {
      var contest := FindContest(ContestList(old(repo.contestCache), old(repo.counters)), room.contestId);
      var key := RoomKey(room.contestId, room.gameStartTime);
      var configuring := MergePatch(Get(old(repo.rooms), key), map[State := PrestartingConfig]);
      && NoDup(joined) && (forall p :: p in joined <==> p in old(repo.JoinedAt(room.contestId, room.gameStartTime)))
      && (outcome == RoomCancelled <==> FillBelowHalf(|joined|, room.maxUser))
      && (outcome == RoomStarted <==> !FillBelowHalf(|joined|, room.maxUser) && contest.Some?)
      && repo.rooms == old(repo.rooms)[key :=
           if outcome == RoomCancelled then MergePatch(Some(configuring), map[State := Cancelled])
           else if outcome == Aborted && joined != [] then configuring
           else MergePatch(Some(configuring), map[State := GameStart])]
      && (outcome != RoomStarted ==>
            nextId == old(nextId) && joinGameCalls == old(joinGameCalls) && timers == timers0 &&
            repo.userTickets == old(repo.userTickets))
      && (outcome == RoomStarted ==>
            Started(room, contest.value, joined, xfac, xfacNow, plainNow,
                    old(nextId), old(joinGameCalls), old(repo.userTickets), timers0,
                    nextId, joinGameCalls, repo.userTickets, timers))
    }

    /** preStartContestConfig: marks the room as configuring, cancels it when it is less than
        half full, and otherwise seats the xFac-first share and the plain share, marks the room
        started and arms round 1's end. Without a listed contest the first ticket cannot be
        built (the step stops there) and with nobody joined the end of round 1 cannot be armed.
        The seating loops of a room without seats end only as `SeatingEnds` says. */
    method PreStartContestConfig(room: Room, xfac: map<string, XFacData>, xfacNow: int, plainNow: int)
      returns (outcome: PreStartOutcome, joined: seq<string>)
      requires SeatingEnds(room, FindContest(ContestList(repo.contestCache, repo.counters), room.contestId),
                           repo.JoinedAt(room.contestId, room.gameStartTime), xfac)
      modifies this`nextId, this`joinGameCalls, this`timers, repo`rooms, repo`userTickets
      ensures FiledUnderOwnKey(old(repo.rooms)) ==> FiledUnderOwnKey(repo.rooms)
      ensures PreStarted(room, xfac, xfacNow, plainNow, old(timers), outcome, joined)
    {
      var contest := repo.GetContestById(room.contestId);
      outcome, joined := ConfigureRoom(room, contest, xfac, xfacNow, plainNow);
    }

    /** What startNextRound leaves behind, `timers0` being the pending timers it ran with: after
        the last round nothing changes and no winner is listed; otherwise the listing it used is
        the winner set of the round just ended, and the next round is seated and armed. */
    twostate predicate NextRoundDone(prevRound: int, room: Room, contest: Contest, now: int, later: int,
                                     timers0: seq<Timer>, new winners: seq<string>)
      reads this`nextId, this`joinGameCalls, this`timers, repo`rooms, repo`userTickets, repo`winners
    {
      if prevRound == room.noOfRounds then
        && winners == []
        && nextId == old(nextId) && joinGameCalls == old(joinGameCalls) && timers == timers0
        && repo.rooms == old(repo.rooms) && repo.userTickets == old(repo.userTickets)
      else
        && NoDup(winners)
        && (forall p :: p in winners <==> p in old(repo.WinnersAt(WinnersKey(prevRound, room.contestId, room.gameStartTime))))
        && NextRoundState(prevRound, room, contest, winners, now, later,
                          old(nextId), old(joinGameCalls), old(repo.userTickets), old(repo.rooms), timers0,
                          nextId, joinGameCalls, repo.userTickets, repo.rooms, timers)
    }

    /** startNextRound: after the last round nothing happens; otherwise the winners of the round
        just ended are seated for the next one (plain tier), the room's round and next-round time
        are written, and the end of the new round is armed. `now` and `later` are the clock
        readings of `generateGameTickets` and of the next-round time. The returned list is the
        winner listing the step used. A room without seats is only advanced when nobody won
        (the seating loop would not end otherwise). */
    method StartNextRound(prevRound: int, room: Room, contest: Contest, now: int, later: int)
      returns (winners: seq<string>)
      requires prevRound == room.noOfRounds || room.capacity > 0 ||
               repo.WinnersAt(WinnersKey(prevRound, room.contestId, room.gameStartTime)) == {}
      modifies this`nextId, this`joinGameCalls, this`timers, repo`rooms, repo`userTickets
      ensures FiledUnderOwnKey(old(repo.rooms)) ==> FiledUnderOwnKey(repo.rooms)
      ensures NextRoundDone(prevRound, room, contest, now, later, old(timers), winners)
    {
      if prevRound == room.noOfRounds {
        return [];
      }
      var currentRound := prevRound + 1;
      winners := repo.GetRoundWinners(prevRound, room.contestId, room.gameStartTime);
      NoDupCardinality(winners, repo.WinnersAt(WinnersKey(prevRound, room.contestId, room.gameStartTime)));
      var _ := GenerateGameTickets(XFacOff, winners, room, contest, map[], now, currentRound);
      var nextRoundStartTime := later + (contest.duration * 1000 + NextRoundBufferTime);
      repo.UpdateContestRoom(room.contestId, room.gameStartTime,
                             map[CurrentRound := currentRound, NextRoundTime := nextRoundStartTime]);
      timers := timers + [NextRound(prevRound + 1, room, contest, contest.duration * 1000 + NextRoundBufferTime)];
    }

    /** getGameTicket: `rpop` of round 1's common queue; an empty queue fails. */
    method GetGameTicket(contestId: string, gameStartTime: int) returns (r: Result<Ticket, string>)
      modifies repo`ticketQueues
      ensures var key := TicketKey(contestId, gameStartTime, 1);
        var q := old(repo.QueueAt(key));
        && (q == [] ==> r == Failure("Unable to get ticket") && repo.ticketQueues == old(repo.ticketQueues))
        && (q != [] ==> r == Success(q[|q| - 1]) && repo.ticketQueues == old(repo.ticketQueues)[key := q[..|q| - 1]])
    {
      var ticket := repo.PopGameTicket(contestId, gameStartTime);
      if ticket.None? {
        return Failure("Unable to get ticket");
      }
      r := Success(ticket.value);
    }

    /** getUserSpecificTicket: the player's own round-1 ticket, if one was stored for them. */
    function GetUserSpecificTicket(contestId: string, gameStartTime: int, userId: string): (t: Option<Ticket>)
      reads repo`userTickets
      ensures t.Some? <==> userId in repo.TicketsAt(TicketKey(contestId, gameStartTime, 1))
      ensures t.Some? ==> t.value == repo.TicketsAt(TicketKey(contestId, gameStartTime, 1))[userId]
    {
      repo.FetchUserSpecificGameTicket(contestId, gameStartTime, userId)
    }

    /** The ticket step of markPresence: the player's own ticket, else one from the common
        queue. */
    method TakeTicket(contestId: string, gameStartTime: int, user: User) returns (r: Result<Ticket, string>)
      modifies repo`ticketQueues
      ensures var key := TicketKey(contestId, gameStartTime, 1);
        var own := old(GetUserSpecificTicket(contestId, gameStartTime, user.did));
        && r == ChosenTicket(own, old(repo.QueueAt(key)))
        && repo.ticketQueues == QueuesAfterChoice(own, old(repo.ticketQueues), key)
    {
      var gameTicket := GetUserSpecificTicket(contestId, gameStartTime, user.did);
      if gameTicket.Some? {
        return Success(gameTicket.value);
      }
      r := GetGameTicket(contestId, gameStartTime);
    }

    /** What markPresence answers and changes: the room must exist; a player already marked
        present gets the ticket saved for them; a room still accepting joins or cancelled
        refuses; otherwise the player takes a ticket, is marked active and the ticket is saved
        for them. */
    twostate predicate PresenceOutcome(contestId: string, gameStartTime: int, user: User, new resp: Response<Ticket>)
      reads this, repo
    {
      var found := old(repo.SearchRoom(contestId, gameStartTime));
      var marked := (RoomKey(contestId, gameStartTime), user.id) in old(activeUsers);
      if found.None? || marked || found.value.state == AcceptJoining || found.value.state == Cancelled then
        && resp == (if found.None? then Rejection("No Tournament Found")
                    else if marked then
                      (if user.id in old(assignedTickets)
                       then Response(Some(old(assignedTickets)[user.id]), Some("Presence already marked"), Ok)
                       else Response(None, None, Exception))
                    else if found.value.state == AcceptJoining then Rejection("Early Tournament Presence")
                    else Rejection("Tournament Cancelled"))
        && repo.ticketQueues == old(repo.ticketQueues)
        && activeUsers == old(activeUsers) && assignedTickets == old(assignedTickets)
      else
        var key := TicketKey(contestId, gameStartTime, 1);
        var own := old(GetUserSpecificTicket(contestId, gameStartTime, user.did));
        var r := ChosenTicket(own, old(repo.QueueAt(key)));
        && repo.ticketQueues == QueuesAfterChoice(own, old(repo.ticketQueues), key)
        && (r.Failure? ==>
              resp == Rejection(r.error) && activeUsers == old(activeUsers) && assignedTickets == old(assignedTickets))
        && (r.Success? ==>
              && resp == Response(Some(r.value), None, Ok)
              && activeUsers == old(activeUsers) + {(RoomKey(found.value.contestId, found.value.gameStartTime), user.id)}
              && assignedTickets == old(assignedTickets)[user.id := r.value])
    }

    /** markPresence, as `PresenceOutcome` describes it. */
    method MarkPresence(contestId: string, gameStartTime: int, user: User) returns (resp: Response<Ticket>)
      modifies repo`ticketQueues, this`activeUsers, this`assignedTickets
      ensures PresenceOutcome(contestId, gameStartTime, user, resp)
    {
      var contestRoom := repo.SearchRoom(contestId, gameStartTime);
      if contestRoom.None? {
        return Rejection("No Tournament Found");
      }
      var room := contestRoom.value;
      if (RoomKey(contestId, gameStartTime), user.id) in activeUsers {
        if user.id !in assignedTickets {
          return Response(None, None, Exception);
        }
        return Response(Some(assignedTickets[user.id]), Some("Presence already marked"), Ok);
      }
      if room.state == AcceptJoining {
        return Rejection("Early Tournament Presence");
      } else if room.state == Cancelled {
        return Rejection("Tournament Cancelled");
      }
      var gameTicket := TakeTicket(contestId, gameStartTime, user);
      if gameTicket.Failure? {
        return Rejection(gameTicket.error);
      }
      activeUsers := activeUsers + {(RoomKey(room.contestId, room.gameStartTime), user.id)};
      assignedTickets := assignedTickets[user.id := gameTicket.value];
      resp := Response(Some(gameTicket.value), None, Ok);
    }

    /** Presence is idempotent: once a call has answered the player a ticket, a second call for
        the same room answers that ticket again as "Presence already marked" and takes no
        other, so the two calls together change exactly what the first one did. It relies on
        every stored room being filed under its own key, which every step that writes rooms
        keeps. */
    method MarkPresenceTwice(contestId: string, gameStartTime: int, user: User)
      returns (first: Response<Ticket>, second: Response<Ticket>)
      requires FiledUnderOwnKey(repo.rooms)
      modifies repo`ticketQueues, this`activeUsers, this`assignedTickets
      ensures first.code == Ok && first.data.Some? ==>
        && second == Response(first.data, Some("Presence already marked"), Ok)
        && PresenceOutcome(contestId, gameStartTime, user, first)
    {
      first := MarkPresence(contestId, gameStartTime, user);
      second := MarkPresence(contestId, gameStartTime, user);
    }

    /** What getContestPrizeBreakUp answers and changes: the contest and its prize breakup; an
        unlisted contest has an empty breakup, a cached non-empty breakup is answered as it is,
        and otherwise the relational store's answer `sql` is cached and answered, or its
        failure is answered with the exception code. */
    twostate predicate PrizeOutcome(cid: Number, sql: Option<seq<PrizeRow>>, new resp: Response<PrizeAnswer>)
      reads repo
    {
      var contest := FindContest(ContestList(old(repo.contestCache), old(repo.counters)), NumberToString(cid));
      var cached := Get(old(repo.prizeCache), NumberToString(cid));
      && (contest.None? ==> resp == Response(Some(PrizeAnswer(None, [])), None, Ok) && repo.prizeCache == old(repo.prizeCache))
      && (contest.Some? && cached.Some? && cached.value != [] ==>
            resp == Response(Some(PrizeAnswer(contest, cached.value)), None, Ok) && repo.prizeCache == old(repo.prizeCache))
      && (contest.Some? && (cached.None? || cached.value == []) && sql.None? ==>
            resp == Response(None, Some("No prize breakup found"), Exception) && repo.prizeCache == old(repo.prizeCache))
      && (contest.Some? && (cached.None? || cached.value == []) && sql.Some? ==>
            resp == Response(Some(PrizeAnswer(contest, sql.value)), None, Ok) &&
            repo.prizeCache == old(repo.prizeCache)[NumberToString(cid) := sql.value])
    }

    /** getContestPrizeBreakUp, as `PrizeOutcome` describes it. */
    method GetContestPrizeBreakUp(cid: Number, sql: Option<seq<PrizeRow>>) returns (resp: Response<PrizeAnswer>)
      modifies repo`prizeCache
      ensures PrizeOutcome(cid, sql, resp)
    {
      var contest := repo.GetContestById(NumberToString(cid));
      var prizeBreakUp: seq<PrizeRow> := [];
      if contest.Some? {
        var rows := repo.GetContestPrizeBreakUp(cid, sql);
        if rows.Failure? {
          return Response(None, Some(rows.error), Exception);
        }
        prizeBreakUp := rows.value;
      }
      resp := Response(Some(PrizeAnswer(contest, prizeBreakUp)), None, Ok);
    }

    /** getContestThatChanged: every key of the new snapshot whose value differs from the old
        snapshot's (all of them when there is no old snapshot), each once. */
    method GetContestThatChanged(prevData: Option<map<string, int>>, newData: Option<map<string, int>>)
      returns (resp: seq<string>)
      ensures NoDup(resp)
      ensures forall cid :: cid in resp <==> Changed(prevData, newData, cid)
    {
      resp := [];
      if newData.None? {
        return;
      }
      var keys := Enumerate(newData.value.Keys);
      for i := 0 to |keys|
        invariant NoDup(resp)
        invariant forall cid :: cid in resp <==> cid in keys[..i] && Changed(prevData, newData, cid)
      {
        var cid := keys[i];
        if prevData.None? || cid !in prevData.value || prevData.value[cid] != newData.value[cid] {
          assert cid !in keys[..i];
          NoDupSnoc(resp, cid);
          resp := resp + [cid];
        }
        assert keys[..i + 1] == keys[..i] + [cid];
      }
      assert keys[..|keys|] == keys;
    }

    /** What sendCounters leaves behind, `timers0` being the pending timers it ran with: the
        listing of the contests whose counters changed since `prevData`, each once; one broadcast
        of their new counts when there is any; the next round armed with the new snapshot. */
    twostate predicate CountersSent(prevData: Option<map<string, int>>, timers0: seq<Timer>, new changed: seq<string>)
      reads this`broadcasts, this`timers, repo`counters
    {
      && NoDup(changed)
      && (forall cid :: cid in changed <==> Changed(prevData, Some(repo.counters), cid))
      && (forall k :: 0 <= k < |changed| ==> changed[k] in repo.counters)
      && broadcasts == (if changed == [] then old(broadcasts)
                        else old(broadcasts) + [Response(Some(Deltas(changed, repo.counters)), None, Ok)])
      && timers == timers0 + [Counters(Some(repo.counters), CounterInterval)]
    }

    /** sendCounters: reads the counter hash, broadcasts the contests whose counters changed
        since the previous snapshot (nothing when none did), and arms the next round of
        counters with the new snapshot. */
    method SendCounters(prevData: Option<map<string, int>>) returns (changed: seq<string>)
      modifies this`broadcasts, this`timers
      ensures CountersSent(prevData, old(timers), changed)
    {
      var newData := repo.GetPlayerJoinCounter();
      changed := GetContestThatChanged(prevData, Some(newData));
      forall k | 0 <= k < |changed|
        ensures changed[k] in newData
      {
        assert changed[k] in changed;
      }
      if |changed| > 0 {
        var resp: seq<CounterDelta> := [];
        for i := 0 to |changed|
          invariant resp == Deltas(changed[..i], newData)
        {
          var cid := changed[i];
          var playerCount := newData[cid];
          resp := resp + [CounterDelta(cid, playerCount)];
        }
        assert changed[..|changed|] == changed;
        broadcasts := broadcasts + [Response(Some(resp), None, Ok)];
      }
      timers := timers + [Counters(Some(newData), CounterInterval)];
    }

    /** One pending timer fires: timer `k` is taken off the list and the step it was armed with
        runs on the arguments it recorded (`preStartContestConfig(room)`,
        `startNextRound(prevRound, room, contest)` or `sendCounters(prevData)`), with the other
        pending timers as the list it starts from; the fields that step does not write keep
        their values. `xfac`, `xfacNow`, `plainNow` and `later` are the readings the step makes
        of the xFac service and the clock. The result records what the step answered. */
    method Fire(k: nat, xfac: map<string, XFacData>, xfacNow: int, plainNow: int, later: int)
      returns (fired: Timer, result: StepResult)
      requires k < |timers|
      requires timers[k].PreStart? ==>
        var room := timers[k].room;
        SeatingEnds(room, FindContest(ContestList(repo.contestCache, repo.counters), room.contestId),
                    repo.JoinedAt(room.contestId, room.gameStartTime), xfac)
      requires timers[k].NextRound? ==>
        var room := timers[k].room;
        timers[k].prevRound == room.noOfRounds || room.capacity > 0 ||
        repo.WinnersAt(WinnersKey(timers[k].prevRound, room.contestId, room.gameStartTime)) == {}
      modifies this`nextId, this`joinGameCalls, this`timers, this`broadcasts, repo`rooms, repo`userTickets
      ensures FiledUnderOwnKey(old(repo.rooms)) ==> FiledUnderOwnKey(repo.rooms)
      ensures fired == old(timers[k])
      ensures var rest := old(timers[..k] + timers[k+1..]);
        && (fired.PreStart? ==>
              && result.Configured?
              && PreStarted(fired.room, xfac, xfacNow, plainNow, rest, result.outcome, result.joined)
              && broadcasts == old(broadcasts))
        && (fired.NextRound? ==>
              && result.Advanced?
              && NextRoundDone(fired.prevRound, fired.room, fired.contest, plainNow, later, rest, result.winners)
              && broadcasts == old(broadcasts))
        && (fired.Counters? ==>
              && result.CountersChecked?
              && CountersSent(fired.prevData, rest, result.changed)
              && nextId == old(nextId) && joinGameCalls == old(joinGameCalls)
              && repo.rooms == old(repo.rooms) && repo.userTickets == old(repo.userTickets))
    {
      fired := timers[k];
      timers := timers[..k] + timers[k+1..];
      match fired {
        case PreStart(room, _) =>
          var outcome, joined := PreStartContestConfig(room, xfac, xfacNow, plainNow);
          result := Configured(outcome, joined);
        case NextRound(prevRound, room, contest, _) =>
          var winners := StartNextRound(prevRound, room, contest, plainNow, later);
          result := Advanced(winners);
        case Counters(prevData, _) =>
          var changed := SendCounters(prevData);
          result := CountersChecked(changed);
      }
    }
  }
}
