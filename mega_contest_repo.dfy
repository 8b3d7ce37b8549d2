/** The store gateway of the tournament code (MegaContestRepo): the cached contest list, the
    room hashes, the joined-player sets, the per-round ticket dictionaries and queues, the
    round-winner sets, the prize-breakup cache and the single join-counter hash. The key-value
    store and the relational store are abstract state: each Redis key is a map entry. */
module MegaContestRepo {
  import opened Wrappers
  import opened JsNumber
  import opened MegaContestDto

  /** The key a room hash and its joined set are filed under: a contest and its time slot. */
  datatype RoomKey = RoomKey(contestId: string, timeSlot: int)

  /** The key of a per-round ticket dictionary or ticket queue. */
  datatype TicketKey = TicketKey(contestId: string, timeSlot: int, round: int)

  /** The key of the winner set of one round. */
  datatype WinnersKey = WinnersKey(round: int, contestId: string, timeSlot: int)

  /** The dictionary key JavaScript uses for `obj[undefined]`. */
  const UndefinedKey: string := "undefined"

  type PrizeRow = map<string, string>

  function RoomKeyOf(r: Room): RoomKey {
    RoomKey(r.contestId, r.gameStartTime)
  }

  // ---------------------------------------------------------------------------------------
  // Room hashes
  // ---------------------------------------------------------------------------------------

  /** The numeric fields of a room hash, the ones `updateContestRoom` is given. */
  datatype RoomField =
    | JoinTime | GameStartTime | State | Capacity | NoOfRounds | GameTimeInMs
    | CurrentRound | NextRoundTime | MaxUser

  /** A set of hash fields written together with `hmset`. */
  type RoomPatch = map<RoomField, int>

  /** What a room key holds: the full record written by `createRoom`, which carries `_id`, or
      loose fields written by `updateContestRoom` to a key that holds no room. */
  datatype RoomHash = Stored(room: Room) | Fragment(fields: RoomPatch)

  function FieldOf(r: Room, f: RoomField): int {
    match f
    case JoinTime => r.joinTime
    case GameStartTime => r.gameStartTime
    case State => r.state
    case Capacity => r.capacity
    case NoOfRounds => r.noOfRounds
    case GameTimeInMs => r.gameTimeInMs
    case CurrentRound => r.currentRound
    case NextRoundTime => r.nextRoundTime
    case MaxUser => r.maxUser
  }

  /** The room after `hmset` of a patch: every field the patch names takes the patch's value,
      every other field, `_id` and `contestId` keep theirs. */
  function Patched(r: Room, p: RoomPatch): (r': Room)
    ensures r'.id == r.id && r'.contestId == r.contestId
    ensures forall f :: FieldOf(r', f) == if f in p then p[f] else FieldOf(r, f)
  {
    r.(joinTime := Get(p, JoinTime).GetOr(r.joinTime),
       gameStartTime := Get(p, GameStartTime).GetOr(r.gameStartTime),
       state := Get(p, State).GetOr(r.state),
       capacity := Get(p, Capacity).GetOr(r.capacity),
       noOfRounds := Get(p, NoOfRounds).GetOr(r.noOfRounds),
       gameTimeInMs := Get(p, GameTimeInMs).GetOr(r.gameTimeInMs),
       currentRound := Get(p, CurrentRound).GetOr(r.currentRound),
       nextRoundTime := Get(p, NextRoundTime).GetOr(r.nextRoundTime),
       maxUser := Get(p, MaxUser).GetOr(r.maxUser))
  }

  /** The hash a key holds after `hmset` of a patch onto what it held before. */
  function MergePatch(h: Option<RoomHash>, p: RoomPatch): RoomHash {
    match h
    case None => Fragment(p)
    case Some(Fragment(fields)) => Fragment(fields + p)
    case Some(Stored(r)) => Stored(Patched(r, p))
  }

  /** Updating a room never adds or removes its `_id`, so a room stays findable exactly when it was. */
  lemma MergeKeepsIdentity(h: Option<RoomHash>, p: RoomPatch)
    ensures MergePatch(h, p).Stored? <==> h.Some? && h.value.Stored?
    ensures h.Some? && h.value.Stored? ==>
      MergePatch(h, p).room.id == h.value.room.id &&
      forall f :: f !in p ==> FieldOf(MergePatch(h, p).room, f) == FieldOf(h.value.room, f)
  {
  }

  /** Every stored room is filed under its own contest and time slot, which is what lets a
      lookup by key (`searchRoom`) stand for the room it finds. */
  predicate FiledUnderOwnKey(rooms: map<RoomKey, RoomHash>) {
    forall k :: k in rooms && rooms[k].Stored? ==> RoomKeyOf(rooms[k].room) == k
  }

  /** createRoom files a room under its own key, so the filing is kept. */
  lemma CreateKeepsFiling(rooms: map<RoomKey, RoomHash>, room: Room)
    requires FiledUnderOwnKey(rooms)
    ensures FiledUnderOwnKey(rooms[RoomKeyOf(room) := Stored(room)])
  {
  }

  /** A patch that does not name the time slot keeps the filing, whatever key it is written to:
      a stored room keeps its contest and its slot, and a fragment is no stored room. */
  lemma PatchKeepsFiling(rooms: map<RoomKey, RoomHash>, key: RoomKey, patch: RoomPatch)
    requires FiledUnderOwnKey(rooms) && GameStartTime !in patch
    ensures FiledUnderOwnKey(rooms[key := MergePatch(Get(rooms, key), patch)])
  {
    var rooms' := rooms[key := MergePatch(Get(rooms, key), patch)];
    forall k | k in rooms' && rooms'[k].Stored?
      ensures RoomKeyOf(rooms'[k].room) == k
    {
      if k == key {
        assert FieldOf(MergePatch(Get(rooms, key), patch).room, GameStartTime) == FieldOf(rooms[key].room, GameStartTime);
      }
    }
  }

  /** The time-slot condition is needed: moving a stored room to another slot breaks the filing. */
  lemma PatchMovingSlotBreaksFiling(rooms: map<RoomKey, RoomHash>, key: RoomKey, patch: RoomPatch)
    requires key in rooms && rooms[key].Stored?
    requires GameStartTime in patch && patch[GameStartTime] != key.timeSlot
    ensures !FiledUnderOwnKey(rooms[key := MergePatch(Get(rooms, key), patch)])
  {
    var moved := rooms[key := MergePatch(Get(rooms, key), patch)];
    assert FieldOf(moved[key].room, GameStartTime) == patch[GameStartTime];
  }

  // ---------------------------------------------------------------------------------------
  // The contest list
  // ---------------------------------------------------------------------------------------

  /** The counter-hash field read for a contest: `contestCounters[parseInt(cid)]` converts the
      parsed number back to a string key. */
  function CounterKey(cid: string): string {
    NumberToString(ParseInt(cid))
  }

  /** For a contest id in canonical decimal notation the counter is read under the id itself. */
  lemma CounterKeyOfCanonicalId(cid: string, n: int)
    requires cid == IntToString(n)
    ensures CounterKey(cid) == cid
  {
    CanonicalRoundTrip(cid, n);
  }

  /** A cached contest as the list hands it out: start moved from seconds to milliseconds, the
      first game one waiting time later, never a tournament contest, and the live join count
      (0 when the counter hash has no field for it). */
  function ListedContest(c: Contest, counters: map<string, int>): (d: Contest)
    ensures d.contestStart == c.contestStart * 1000
    ensures d.gameStartTime == d.contestStart + c.waitingTime
    ensures !d.isTournamentContest
    ensures CounterKey(c.cid) in counters ==> d.totalJoined == counters[CounterKey(c.cid)]
    ensures CounterKey(c.cid) !in counters ==> d.totalJoined == 0
    ensures d.cid == c.cid && d.cn == c.cn && d.tt == c.tt && d.duration == c.duration
    ensures d.noOfRound == c.noOfRound && d.waitingTime == c.waitingTime
    ensures d.maxUsers == c.maxUsers && d.isXFac == c.isXFac
  {
    var start := c.contestStart * 1000;
    c.(contestStart := start,
       gameStartTime := start + c.waitingTime,
       isTournamentContest := false,
       totalJoined := Get(counters, CounterKey(c.cid)).GetOr(0))
  }

  /** `list` is `cached` with its first `i` contests completed for the listing. */
  predicate CompletedUpTo(list: seq<Contest>, cached: seq<Contest>, counters: map<string, int>, i: nat) {
    && |list| == |cached| && i <= |list|
    && (forall k :: 0 <= k < i ==> list[k] == ListedContest(cached[k], counters))
    && (forall k :: i <= k < |list| ==> list[k] == cached[k])
  }

  /** The contest list derived from the cache; a missing or empty cache gives the empty list. */
  function ContestList(cache: Option<seq<Contest>>, counters: map<string, int>): (l: seq<Contest>)
    ensures cache.None? ==> l == []
    ensures cache.Some? ==> |l| == |cache.value|
    ensures cache.Some? ==> forall i :: 0 <= i < |l| ==> l[i] == ListedContest(cache.value[i], counters)
  {
    match cache
    case None => []
    case Some(cached) => seq(|cached|, i requires 0 <= i < |cached| => ListedContest(cached[i], counters))
  }

  /** `list.find(c => c.cid.toString() == contestId)`: the first contest with that id. */
  function FindContest(list: seq<Contest>, contestId: string): (r: Option<Contest>)
    ensures r.None? <==> forall i :: 0 <= i < |list| ==> list[i].cid != contestId
    ensures r.Some? ==> r.value.cid == contestId
    ensures r.Some? ==> exists i :: 0 <= i < |list| && list[i] == r.value && list[i].cid == contestId &&
                                    forall j :: 0 <= j < i ==> list[j].cid != contestId
  {
    if list == [] then None
    else if list[0].cid == contestId then Some(list[0])
    else
      var r := FindContest(list[1..], contestId);
      assert r.Some? ==> exists i :: 0 <= i < |list| - 1 && list[1..][i] == r.value && list[1..][i].cid == contestId &&
                                      forall j :: 0 <= j < i ==> list[1..][j].cid != contestId;
      r
  }

  // ---------------------------------------------------------------------------------------
  // Ticket queues (rpush / rpop on one list)
  // ---------------------------------------------------------------------------------------

  function RPush<T>(q: seq<T>, data: seq<T>): seq<T> {
    q + data
  }

  /** `rpop`: the popped tail element (none on an empty list) and the list left behind. */
  function RPop<T>(q: seq<T>): (Option<T>, seq<T>) {
    if q == [] then (None, []) else (Some(q[|q| - 1]), q[..|q| - 1])
  }

  function Reversed<T>(s: seq<T>): seq<T> {
    if s == [] then [] else [s[|s| - 1]] + Reversed(s[..|s| - 1])
  }

  /** `k` successive pops: the elements popped, in order, and the list left behind. */
  function PopMany<T>(q: seq<T>, k: nat): (seq<Option<T>>, seq<T>) {
    if k == 0 then ([], q)
    else
      var (x, rest) := RPop(q);
      var (xs, left) := PopMany(rest, k - 1);
      ([x] + xs, left)
  }

  function Somes<T>(s: seq<T>): seq<Option<T>> {
    seq(|s|, i requires 0 <= i < |s| => Some(s[i]))
  }

  /** The queue is last-in first-out: popping after a push returns the pushed tickets newest first
      and leaves the queue as it was before the push. */
  lemma {:induction false} PopsUndoPushInReverse<T>(q: seq<T>, data: seq<T>)
    ensures PopMany(RPush(q, data), |data|) == (Somes(Reversed(data)), q)
  {
    if data != [] {
      var last := data[|data| - 1];
      var init := data[..|data| - 1];
      assert RPush(q, data) == RPush(q, init) + [last];
      assert RPop(RPush(q, data)) == (Some(last), RPush(q, init));
      PopsUndoPushInReverse(q, init);
      assert data[..|data| - 1] == init;
      assert Reversed(data) == [last] + Reversed(init);
      assert Somes(Reversed(data)) == [Some(last)] + Somes(Reversed(init));
      var (x, rest) := RPop(RPush(q, data));
      assert x == Some(last) && rest == RPush(q, init);
      assert PopMany(RPush(q, data), |data|) == ([x] + PopMany(rest, |init|).0, PopMany(rest, |init|).1);
    } else {
      assert RPush(q, data) == q;
      assert Somes(Reversed(data)) == [];
    }
  }

  // ---------------------------------------------------------------------------------------
  // The store
  // ---------------------------------------------------------------------------------------

  class Store {
    /** The cached contest list (`megaContest` key), absent when the cache holds nothing. */
    var contestCache: Option<seq<Contest>>
    /** The join-counter hash: contest id to number of successful joins. */
    var counters: map<string, int>
    var rooms: map<RoomKey, RoomHash>
    var joined: map<RoomKey, set<string>>
    /** Per-round dictionaries player id to ticket (`hmset` merges into them). */
    var userTickets: map<TicketKey, map<string, Ticket>>
    /** Per-round ticket lists (`rpush`/`rpop`). */
    var ticketQueues: map<TicketKey, seq<Ticket>>
    /** Per-round winner sets, written by the game server (not by this code). */
    var winners: map<WinnersKey, set<string>>
    var prizeCache: map<string, seq<PrizeRow>>

    constructor (contests: Option<seq<Contest>>)
      ensures contestCache == contests && counters == map[] && rooms == map[] && joined == map[]
      ensures userTickets == map[] && ticketQueues == map[] && winners == map[] && prizeCache == map[]
      ensures FiledUnderOwnKey(rooms)
    {
      contestCache := contests;
      counters := map[];
      rooms := map[];
      joined := map[];
      userTickets := map[];
      ticketQueues := map[];
      winners := map[];
      prizeCache := map[];
    }

    /** getContestList: reads the cache and completes each contest in place. */
    method GetContestList() returns (list: seq<Contest>)
      ensures list == ContestList(contestCache, counters)
    {
      list := if contestCache.Some? then contestCache.value else [];
      ghost var cached := list;
      for i := 0 to |list|
        invariant CompletedUpTo(list, cached, counters, i)
      {
        var contest := CompleteContest(list[i]);
        list := list[i := contest];
      }
      ghost var expected := ContestList(contestCache, counters);
      assert |list| == |expected|;
      assert forall k :: 0 <= k < |list| ==> list[k] == expected[k];
    }

    /** The body of getContestList's loop: the start in milliseconds, the first game one waiting
        time later, no tournament, and the join count read from the counter hash. */
    method CompleteContest(contest: Contest) returns (d: Contest)
      ensures d == ListedContest(contest, counters)
    {
      var contestStart := contest.contestStart * 1000;
      var contestCounters := GetPlayerJoinCounter();
      var key := NumberToString(ParseInt(contest.cid));
      var totalJoined := if key in contestCounters then contestCounters[key] else 0;
      d := contest.(contestStart := contestStart,
                    gameStartTime := contestStart + contest.waitingTime,
                    isTournamentContest := false,
                    totalJoined := totalJoined);
    }

    /** getContestById: the first listed contest whose id equals the argument, if any. */
    method GetContestById(contestId: string) returns (contest: Option<Contest>)
      ensures contest == FindContest(ContestList(contestCache, counters), contestId)
    {
      var cList := GetContestList();
      contest := FindContest(cList, contestId);
    }

    /** searchRoom: the room filed under the contest and time slot, only when its hash has an `_id`. */
    function SearchRoom(contestId: string, timeSlot: int): (r: Option<Room>)
      reads this`rooms
      ensures r.Some? <==> RoomKey(contestId, timeSlot) in rooms && rooms[RoomKey(contestId, timeSlot)].Stored?
      ensures r.Some? ==> r.value == rooms[RoomKey(contestId, timeSlot)].room
    {
      var key := RoomKey(contestId, timeSlot);
      if key in rooms && rooms[key].Stored? then Some(rooms[key].room) else None
    }

    /** createRoom: writes every field of the room (and so its `_id`) under its key. */
    method CreateRoom(room: Room)
      modifies this`rooms
      ensures rooms == old(rooms)[RoomKeyOf(room) := Stored(room)]
      ensures FiledUnderOwnKey(old(rooms)) ==> FiledUnderOwnKey(rooms)
    {
      if FiledUnderOwnKey(rooms) {
        CreateKeepsFiling(rooms, room);
      }
      rooms := rooms[RoomKeyOf(room) := Stored(room)];
    }

    /** updateContestRoom: writes the given fields only. */
    method UpdateContestRoom(contestId: string, gameStartTime: int, patch: RoomPatch)
      modifies this`rooms
      ensures var key := RoomKey(contestId, gameStartTime);
              rooms == old(rooms)[key := MergePatch(Get(old(rooms), key), patch)]
      ensures FiledUnderOwnKey(old(rooms)) && GameStartTime !in patch ==> FiledUnderOwnKey(rooms)
    {
      var key := RoomKey(contestId, gameStartTime);
      if FiledUnderOwnKey(rooms) && GameStartTime !in patch {
        PatchKeepsFiling(rooms, key, patch);
      }
      rooms := rooms[key := MergePatch(Get(rooms, key), patch)];
    }

    /** The joined set of a room (empty when the key holds nothing). */
    function JoinedAt(contestId: string, gameStartTime: int): set<string>
      reads this`joined
    {
      Get(joined, RoomKey(contestId, gameStartTime)).GetOr({})
    }

    /** existInContestRoom */
    function ExistInContestRoom(contestId: string, gameStartTime: int, userId: string): (b: bool)
      reads this`joined
      ensures b <==> userId in JoinedAt(contestId, gameStartTime)
    {
      var key := RoomKey(contestId, gameStartTime);
      key in joined && userId in joined[key]
    }

    /** addInContestRoom: `sadd`, answering how many members were added. */
    method AddInContestRoom(contestId: string, gameStartTime: int, userId: string) returns (added: nat)
      modifies this`joined
      ensures added == if userId in old(JoinedAt(contestId, gameStartTime)) then 0 else 1
      ensures joined == old(joined)[RoomKey(contestId, gameStartTime) := old(JoinedAt(contestId, gameStartTime)) + {userId}]
    {
      var members := JoinedAt(contestId, gameStartTime);
      added := if userId in members then 0 else 1;
      joined := joined[RoomKey(contestId, gameStartTime) := members + {userId}];
    }

    /** getPlayerJoined: `smembers`, every joined player once, in no particular order. */
    method GetPlayerJoined(contestId: string, gameStartTime: int) returns (players: seq<string>)
      ensures NoDup(players)
      ensures forall p :: p in players <==> p in JoinedAt(contestId, gameStartTime)
    {
      players := Enumerate(JoinedAt(contestId, gameStartTime));
    }

    function QueueAt(key: TicketKey): seq<Ticket>
      reads this`ticketQueues
    {
      Get(ticketQueues, key).GetOr([])
    }

    function TicketsAt(key: TicketKey): map<string, Ticket>
      reads this`userTickets
    {
      Get(userTickets, key).GetOr(map[])
    }

    /** addContestTickets: `rpush` of the tickets onto the round's queue. */
    method AddContestTickets(contestId: string, gameStartTime: int, data: seq<Ticket>, round: int)
      modifies this`ticketQueues
      ensures var key := TicketKey(contestId, gameStartTime, round);
              ticketQueues == old(ticketQueues)[key := RPush(old(QueueAt(key)), data)]
    {
      var key := TicketKey(contestId, gameStartTime, round);
      ticketQueues := ticketQueues[key := RPush(QueueAt(key), data)];
    }

    /** addUserSpecificTickets: `hmset` of the player-to-ticket dictionary onto the round's hash. */
    method AddUserSpecificTickets(contestId: string, gameStartTime: int, data: map<string, Ticket>, round: int)
      modifies this`userTickets
      ensures var key := TicketKey(contestId, gameStartTime, round);
              userTickets == old(userTickets)[key := old(TicketsAt(key)) + data]
    {
      var key := TicketKey(contestId, gameStartTime, round);
      userTickets := userTickets[key := TicketsAt(key) + data];
    }

    /** popGameTicket: `rpop` on the round's queue, round 1 unless told otherwise. */
    method PopGameTicket(contestId: string, timeSlot: int, round: int := 1) returns (ticket: Option<Ticket>)
      modifies this`ticketQueues
      ensures var key := TicketKey(contestId, timeSlot, round);
              (ticket, Get(ticketQueues, key).GetOr([])) == RPop(old(QueueAt(key))) &&
              ticketQueues == if old(QueueAt(key)) == [] then old(ticketQueues)
                              else old(ticketQueues)[key := RPop(old(QueueAt(key))).1]
    {
      var key := TicketKey(contestId, timeSlot, round);
      var q := QueueAt(key);
      if q != [] {
        ticket := Some(q[|q| - 1]);
        ticketQueues := ticketQueues[key := q[..|q| - 1]];
      } else {
        ticket := None;
      }
    }

    /** fetchUserSpecificGameTicket: `hget` of the player's entry, round 1 unless told otherwise. */
    function FetchUserSpecificGameTicket(contestId: string, timeSlot: int, userId: string, round: int := 1): (t: Option<Ticket>)
      reads this`userTickets
      ensures t.Some? <==> userId in TicketsAt(TicketKey(contestId, timeSlot, round))
      ensures t.Some? ==> t.value == TicketsAt(TicketKey(contestId, timeSlot, round))[userId]
    {
      Get(TicketsAt(TicketKey(contestId, timeSlot, round)), userId)
    }

    function WinnersAt(key: WinnersKey): set<string>
      reads this`winners
    {
      Get(winners, key).GetOr({})
    }

    /** getRoundWinners: `smembers` of the round's winner set. */
    method GetRoundWinners(round: int, contestId: string, gameStartTime: int) returns (players: seq<string>)
      ensures NoDup(players)
      ensures forall p :: p in players <==> p in WinnersAt(WinnersKey(round, contestId, gameStartTime))
    {
      players := Enumerate(WinnersAt(WinnersKey(round, contestId, gameStartTime)));
    }

    /** getContestPrizeBreakUp: a non-empty cached breakup is answered as it is; otherwise the
        relational store's answer `sql` is cached and answered, and no answer at all fails. */
    method GetContestPrizeBreakUp(contestId: Number, sql: Option<seq<PrizeRow>>) returns (r: Result<seq<PrizeRow>, string>)
      modifies this`prizeCache
      ensures var key := NumberToString(contestId);
              var cached := Get(old(prizeCache), key);
              if cached.Some? && cached.value != [] then
                r == Success(cached.value) && prizeCache == old(prizeCache)
              else if sql.None? then
                r == Failure("No prize breakup found") && prizeCache == old(prizeCache)
              else
                r == Success(sql.value) && prizeCache == old(prizeCache)[key := sql.value]
    {
      var cacheKey := NumberToString(contestId);
      var prizeBreakUp := Get(prizeCache, cacheKey);
      if prizeBreakUp.None? || prizeBreakUp.value == [] {
        if sql.None? {
          return Failure("No prize breakup found");
        }
        prizeCache := prizeCache[cacheKey := sql.value];
        return Success(sql.value);
      }
      r := Success(prizeBreakUp.value);
    }

    /** getPlayerJoinCounter: `hgetall` of the counter hash. */
    function GetPlayerJoinCounter(): map<string, int>
      reads this`counters
    {
      counters
    }

    /** incJoinPlayerCounter: `hincrby` of the contest's field, answering the new value. */
    method IncJoinPlayerCounter(contestId: string, inc: int) returns (v: int)
      modifies this`counters
      ensures v == Get(old(counters), contestId).GetOr(0) + inc
      ensures counters == old(counters)[contestId := v]
    {
      v := Get(counters, contestId).GetOr(0) + inc;
      counters := counters[contestId := v];
    }
  }
}
