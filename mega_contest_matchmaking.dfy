/** What `generateGameTickets` writes, as functions of its inputs, and the properties of those
    writes. Each seat the loops fill is one Assignment: the player-dictionary key written
    (`userSpecificTicket[playerJoined[i]]`, which is the key "undefined" once `i` has run past
    the list) and the ticket written under it; the same pair is handed to `joinGame`.

    The outer loop runs in turns. A turn starting at entry `i` either gives the entry a game of
    its own against the opponent the xFac lookup found (xFac-first tier only), or fills a whole
    game of `capacity` seats with the entries from `i` on. Either way it draws one game id. */
module MegaContestMatchmaking {
  import opened Wrappers
  import opened MegaContestDto
  import opened MegaContestRepo

  /** What every ticket of one call shares: the room, the contest's round duration in seconds,
      the round number, the clock reading taken at the start of the call, the game-server
      address and the game-server timeout budget. */
  datatype TicketEnv = TicketEnv(room: Room, duration: int, round: int, now: int, serverIp: string, timeout: int)

  datatype Assignment = Assignment(key: string, ticket: Ticket)

  /** The next-round instant stamped in every ticket's metadata. */
  function NextRoundIn(env: TicketEnv): int {
    env.now + env.duration * 1000 + NextRoundBufferTime
  }

  function SeatTicket(env: TicketEnv, gameId: ObjectId, pos: int, meta: TicketMeta): Ticket {
    Ticket(gameId, env.room.capacity, env.serverIp, pos, env.room.contestId, env.room.gameStartTime,
           env.timeout, env.duration * 1000, env.round, meta)
  }

  /** `xfacData.userId` is truthy: an opponent was found. */
  predicate HasXFac(x: XFacData) {
    x.userId.Some? && x.userId.value != ""
  }

  function XFacMeta(env: TicketEnv, x: XFacData): TicketMeta
    requires HasXFac(x)
  {
    XFacMatch(XFacFirst, x.userId.value, x.xFacLevel, x.userMid, x.xFacLogId, NextRoundIn(env))
  }

  /** The dictionary key `playerJoined[k]` stands for. */
  function KeyAt(players: seq<string>, k: nat): string {
    if k < |players| then players[k] else UndefinedKey
  }

  /** The answer of the xFac lookup for player `p`. The lookup is given as the answers it would
      make; a player it has no answer for gets none (no opponent). */
  function LookupXFac(xfac: map<string, XFacData>, p: string): XFacData {
    if p in xfac then xfac[p] else XFacData(None, 0, 0, "")
  }

  /** In the xFac-first tier, the lookup for the entry at `i` found an opponent. */
  predicate SingleSeat(tier: GamePriority, players: seq<string>, xfac: map<string, XFacData>, i: nat)
    requires i < |players|
  {
    tier == XFacFirst && HasXFac(LookupXFac(xfac, players[i]))
  }

  /** The number of seats of the turn starting at entry `i`, which is how far it advances `i`. */
  function GroupSize(env: TicketEnv, tier: GamePriority, players: seq<string>, xfac: map<string, XFacData>, i: nat): nat
    requires i < |players|
  {
    if SingleSeat(tier, players, xfac, i) then 1 else if env.room.capacity > 0 then env.room.capacity else 0
  }

  /** The metadata of every seat of the turn starting at entry `i`. */
  function GroupMeta(env: TicketEnv, tier: GamePriority, players: seq<string>, xfac: map<string, XFacData>, i: nat): TicketMeta
    requires i < |players|
  {
    if SingleSeat(tier, players, xfac, i) then XFacMeta(env, LookupXFac(xfac, players[i])) else Standard(tier, NextRoundIn(env))
  }

  /** Seat `j` of the turn starting at entry `i`, which draws game id `gameId`. */
  function GroupSeat(env: TicketEnv, tier: GamePriority, players: seq<string>, xfac: map<string, XFacData>, i: nat, gameId: ObjectId, j: nat): Assignment
    requires i < |players|
  {
    Assignment(KeyAt(players, i + j), SeatTicket(env, gameId, j, GroupMeta(env, tier, players, xfac, i)))
  }

  /** The loops only terminate when every turn advances: a turn that fills a game of no seats
      leaves `i` where it is, so with no seats in a room every entry from `i` on must be given
      an xFac game of its own. */
  predicate Seatable(env: TicketEnv, tier: GamePriority, players: seq<string>, xfac: map<string, XFacData>, i: nat) {
    env.room.capacity > 0 || forall e :: i <= e < |players| ==> SingleSeat(tier, players, xfac, e)
  }

  /** The number of seats written from entry `i` on. */
  function SeatCount(env: TicketEnv, tier: GamePriority, players: seq<string>, xfac: map<string, XFacData>, i: nat): nat
    requires Seatable(env, tier, players, xfac, i)
    decreases |players| - i
  {
    if i >= |players| then 0
    else GroupSize(env, tier, players, xfac, i) + SeatCount(env, tier, players, xfac, i + GroupSize(env, tier, players, xfac, i))
  }

  /** The number of game ids drawn from entry `i` on (one per turn). */
  function Games(env: TicketEnv, tier: GamePriority, players: seq<string>, xfac: map<string, XFacData>, i: nat): nat
    requires Seatable(env, tier, players, xfac, i)
    decreases |players| - i
  {
    if i >= |players| then 0
    else 1 + Games(env, tier, players, xfac, i + GroupSize(env, tier, players, xfac, i))
  }

  /** The `k`-th seat written from entry `i` on, game ids drawn from `gameId` upwards. */
  function SeatAt(env: TicketEnv, tier: GamePriority, players: seq<string>, xfac: map<string, XFacData>, i: nat, gameId: ObjectId, k: nat): Assignment
    requires Seatable(env, tier, players, xfac, i)
    requires k < SeatCount(env, tier, players, xfac, i)
    decreases |players| - i
  {
    var m := GroupSize(env, tier, players, xfac, i);
    if k < m then GroupSeat(env, tier, players, xfac, i, gameId, k)
    else SeatAt(env, tier, players, xfac, i + m, gameId + 1, k - m)
  }

  /** Every seat written from entry `i` on, in loop order. The plain tier never consults `xfac`. */
  function TierWrites(env: TicketEnv, tier: GamePriority, players: seq<string>, xfac: map<string, XFacData>, i: nat, gameId: ObjectId): (w: seq<Assignment>)
    requires Seatable(env, tier, players, xfac, i)
    ensures |w| == SeatCount(env, tier, players, xfac, i)
  {
    seq(SeatCount(env, tier, players, xfac, i), k requires 0 <= k < SeatCount(env, tier, players, xfac, i) =>
      SeatAt(env, tier, players, xfac, i, gameId, k))
  }

  /** The seats of the turn starting at entry `i`. */
  function GroupSeats(env: TicketEnv, tier: GamePriority, players: seq<string>, xfac: map<string, XFacData>, i: nat, gameId: ObjectId): (g: seq<Assignment>)
    requires i < |players|
    ensures |g| == GroupSize(env, tier, players, xfac, i)
  {
    seq(GroupSize(env, tier, players, xfac, i), j requires 0 <= j < GroupSize(env, tier, players, xfac, i) =>
      GroupSeat(env, tier, players, xfac, i, gameId, j))
  }

  /** The player dictionary after the writes, later writes to a key replacing earlier ones. */
  function Apply(ws: seq<Assignment>): map<string, Ticket> {
    if ws == [] then map[] else Apply(ws[..|ws| - 1])[ws[|ws| - 1].key := ws[|ws| - 1].ticket]
  }

  /** The number of blocks of `d` needed to cover `x` entries, that is the ceiling of x/d. */
  function CeilDiv(x: int, d: int): nat
    requires d > 0
    decreases x
  {
    if x <= 0 then 0 else 1 + CeilDiv(x - d, d)
  }

  // ---------------------------------------------------------------------------------------
  // Arithmetic helpers
  // ---------------------------------------------------------------------------------------

  lemma {:induction false} CeilDivBounds(x: int, d: int)
    requires d > 0 && x > 0
    ensures (CeilDiv(x, d) - 1) * d < x <= CeilDiv(x, d) * d
    decreases x
  {
    if x - d > 0 {
      CeilDivBounds(x - d, d);
    }
  }

  lemma DivModShift(k: int, d: int)
    requires d > 0 && k >= d
    ensures (k - d) / d == k / d - 1
    ensures (k - d) % d == k % d
  {
    var q, r := k / d, k % d;
    assert k == q * d + r;
    assert k - d == (q - 1) * d + r;
    DivModUnique(k - d, d, q - 1, r);
  }

  lemma DivModUnique(x: int, d: int, q: int, r: int)
    requires d > 0 && 0 <= r < d && x == q * d + r
    ensures x / d == q && x % d == r
  {
    var q', r' := x / d, x % d;
    assert x == q' * d + r' && 0 <= r' < d;
    if q' < q {
      MulStep(q', q, d);
      assert false;
    } else if q < q' {
      MulStep(q, q', d);
      assert false;
    }
  }

  lemma {:induction false} MulStep(a: int, b: int, d: int)
    requires a < b && d > 0
    ensures a * d + d <= b * d
    decreases b - a
  {
    if a + 1 < b {
      MulStep(a + 1, b, d);
    }
    assert (a + 1) * d == a * d + d;
  }

  lemma MulSucc(a: int, c: int)
    ensures (c + 1) * a == c * a + a
  {
  }

  // ---------------------------------------------------------------------------------------
  // The player dictionary
  // ---------------------------------------------------------------------------------------

  function KeysWritten(ws: seq<Assignment>): set<string> {
    set a | a in ws :: a.key
  }

  /** The dictionary holds exactly the keys written. */
  lemma {:induction false} ApplyKeys(ws: seq<Assignment>)
    ensures Apply(ws).Keys == KeysWritten(ws)
  {
    if ws != [] {
      var init := ws[..|ws| - 1];
      ApplyKeys(init);
      assert ws == init + [ws[|ws| - 1]];
      assert KeysWritten(ws) == KeysWritten(init) + {ws[|ws| - 1].key};
    }
  }

  /** A key holds the ticket of the last write to it. */
  lemma {:induction false} ApplyLastWrite(ws: seq<Assignment>, idx: nat)
    requires idx < |ws|
    requires forall j :: idx < j < |ws| ==> ws[j].key != ws[idx].key
    ensures ws[idx].key in Apply(ws) && Apply(ws)[ws[idx].key] == ws[idx].ticket
  {
    if idx < |ws| - 1 {
      ApplyLastWrite(ws[..|ws| - 1], idx);
    }
  }

  // ---------------------------------------------------------------------------------------
  // Turns
  // ---------------------------------------------------------------------------------------

  /** The writes from entry `i` on are the seats of the turn at `i` followed by the writes of
      the later turns (the shape of the two nested loops). */
  lemma TierStep(env: TicketEnv, tier: GamePriority, players: seq<string>, xfac: map<string, XFacData>, i: nat, gameId: ObjectId)
    requires i < |players| && Seatable(env, tier, players, xfac, i)
    ensures TierWrites(env, tier, players, xfac, i, gameId) ==
      GroupSeats(env, tier, players, xfac, i, gameId) +
      TierWrites(env, tier, players, xfac, i + GroupSize(env, tier, players, xfac, i), gameId + 1)
  {
    var m := GroupSize(env, tier, players, xfac, i);
    var w := TierWrites(env, tier, players, xfac, i, gameId);
    var g := GroupSeats(env, tier, players, xfac, i, gameId);
    var rest := TierWrites(env, tier, players, xfac, i + m, gameId + 1);
    assert |w| == |g| + |rest|;
    forall k | 0 <= k < |w|
      ensures w[k] == (g + rest)[k]
    {
      if k >= m {
        assert w[k] == rest[k - m];
      }
    }
  }

  /** One turn of the outer loop: the writes so far followed by the turn's seats, then by the
      writes still to come from the next turn on, are still all the writes. */
  lemma TierProgress(env: TicketEnv, tier: GamePriority, players: seq<string>, xfac: map<string, XFacData>, i: nat, gameId: ObjectId, w: seq<Assignment>, total: seq<Assignment>)
    requires i < |players| && Seatable(env, tier, players, xfac, i)
    requires w + TierWrites(env, tier, players, xfac, i, gameId) == total
    ensures var m := GroupSize(env, tier, players, xfac, i);
      && Seatable(env, tier, players, xfac, i + m)
      && Games(env, tier, players, xfac, i) == 1 + Games(env, tier, players, xfac, i + m)
      && (w + GroupSeats(env, tier, players, xfac, i, gameId)) + TierWrites(env, tier, players, xfac, i + m, gameId + 1) == total
  {
    var m := GroupSize(env, tier, players, xfac, i);
    TierStep(env, tier, players, xfac, i, gameId);
    var g := GroupSeats(env, tier, players, xfac, i, gameId);
    var rest := TierWrites(env, tier, players, xfac, i + m, gameId + 1);
    assert w + (g + rest) == (w + g) + rest;
  }

  /** Past the end of the list nothing is left to write. */
  lemma TierDone(env: TicketEnv, tier: GamePriority, players: seq<string>, xfac: map<string, XFacData>, i: nat, gameId: ObjectId)
    requires i >= |players|
    ensures Seatable(env, tier, players, xfac, i)
    ensures TierWrites(env, tier, players, xfac, i, gameId) == [] && Games(env, tier, players, xfac, i) == 0
  {
  }

  lemma ApplySnoc(ws: seq<Assignment>, a: Assignment)
    ensures Apply(ws + [a]) == Apply(ws)[a.key := a.ticket]
  {
    assert (ws + [a])[..|ws|] == ws;
  }

  /** Each turn advances `i` by one seat (an xFac game) or by a full game of `capacity`. */
  lemma TurnAdvances(env: TicketEnv, tier: GamePriority, players: seq<string>, xfac: map<string, XFacData>, i: nat)
    requires i < |players| && Seatable(env, tier, players, xfac, i)
    ensures 1 <= GroupSize(env, tier, players, xfac, i)
    ensures SingleSeat(tier, players, xfac, i) ==> GroupSize(env, tier, players, xfac, i) == 1
    ensures !SingleSeat(tier, players, xfac, i) ==> GroupSize(env, tier, players, xfac, i) == env.room.capacity
  {
  }

  // ---------------------------------------------------------------------------------------
  // Properties of the seats of either tier
  // ---------------------------------------------------------------------------------------

  /** Every ticket carries the call's round, room, play time, tier and next-round instant. */
  lemma {:induction false} TicketsCarryRound(env: TicketEnv, tier: GamePriority, players: seq<string>, xfac: map<string, XFacData>, i: nat, gameId: ObjectId, k: nat)
    requires Seatable(env, tier, players, xfac, i)
    requires k < SeatCount(env, tier, players, xfac, i)
    ensures var t := SeatAt(env, tier, players, xfac, i, gameId, k).ticket;
      && t.round == env.round && t.metaData.nextRoundIn == NextRoundIn(env)
      && t.metaData.gameConfig == tier && t.contestId == env.room.contestId
      && t.timeSlot == env.room.gameStartTime && t.capacity == env.room.capacity
      && t.gamePlayTime == env.duration * 1000 && t.serverIp == env.serverIp
      && t.gameServerTimeoutIn == env.timeout
    decreases |players| - i
  {
    var m := GroupSize(env, tier, players, xfac, i);
    if k >= m {
      TicketsCarryRound(env, tier, players, xfac, i + m, gameId + 1, k - m);
    }
  }

  /** The game ids used are `gameId`, `gameId + 1`, ... one per turn, all below `gameId + Games`. */
  lemma {:induction false} GameIdRange(env: TicketEnv, tier: GamePriority, players: seq<string>, xfac: map<string, XFacData>, i: nat, gameId: ObjectId, k: nat)
    requires Seatable(env, tier, players, xfac, i)
    requires k < SeatCount(env, tier, players, xfac, i)
    ensures gameId <= SeatAt(env, tier, players, xfac, i, gameId, k).ticket.gameId < gameId + Games(env, tier, players, xfac, i)
    decreases |players| - i
  {
    var m := GroupSize(env, tier, players, xfac, i);
    if k >= m {
      GameIdRange(env, tier, players, xfac, i + m, gameId + 1, k - m);
    }
  }

  /** The entry at index `e` (from `i` on) is written. */
  lemma {:induction false} EveryEntrySeated(env: TicketEnv, tier: GamePriority, players: seq<string>, xfac: map<string, XFacData>, i: nat, gameId: ObjectId, e: nat)
    requires Seatable(env, tier, players, xfac, i) && i <= e < |players|
    ensures exists k :: 0 <= k < SeatCount(env, tier, players, xfac, i) && SeatAt(env, tier, players, xfac, i, gameId, k).key == players[e]
    decreases |players| - i
  {
    var m := GroupSize(env, tier, players, xfac, i);
    if e < i + m {
      assert SeatAt(env, tier, players, xfac, i, gameId, e - i).key == players[e];
    } else {
      EveryEntrySeated(env, tier, players, xfac, i + m, gameId + 1, e);
      var k :| 0 <= k < SeatCount(env, tier, players, xfac, i + m) && SeatAt(env, tier, players, xfac, i + m, gameId + 1, k).key == players[e];
      assert SeatAt(env, tier, players, xfac, i, gameId, k + m).key == players[e];
    }
  }

  /** Every key written is an entry from `i` on, or "undefined". */
  lemma {:induction false} WriteKeyIsEntry(env: TicketEnv, tier: GamePriority, players: seq<string>, xfac: map<string, XFacData>, i: nat, gameId: ObjectId, k: nat)
    requires Seatable(env, tier, players, xfac, i)
    requires k < SeatCount(env, tier, players, xfac, i)
    ensures var key := SeatAt(env, tier, players, xfac, i, gameId, k).key;
      key == UndefinedKey || exists e :: i <= e < |players| && key == players[e]
    decreases |players| - i
  {
    var m := GroupSize(env, tier, players, xfac, i);
    if k < m {
      if i + k < |players| {
        assert SeatAt(env, tier, players, xfac, i, gameId, k).key == players[i + k];
      }
    } else {
      WriteKeyIsEntry(env, tier, players, xfac, i + m, gameId + 1, k - m);
    }
  }

  /** The player dictionary has a key for every joined player, and the only other key it can
      have is "undefined" (written by the seats past the end of the list). */
  lemma DictionaryKeys(env: TicketEnv, tier: GamePriority, players: seq<string>, xfac: map<string, XFacData>, gameId: ObjectId)
    requires Seatable(env, tier, players, xfac, 0)
    ensures var dict := Apply(TierWrites(env, tier, players, xfac, 0, gameId));
      && (forall p :: p in players ==> p in dict)
      && (forall key :: key in dict ==> key in players || key == UndefinedKey)
  {
    var w := TierWrites(env, tier, players, xfac, 0, gameId);
    ApplyKeys(w);
    forall p | p in players
      ensures p in KeysWritten(w)
    {
      var e :| 0 <= e < |players| && players[e] == p;
      EveryEntrySeated(env, tier, players, xfac, 0, gameId, e);
      var k :| 0 <= k < |w| && SeatAt(env, tier, players, xfac, 0, gameId, k).key == players[e];
      assert w[k] in w;
    }
    forall key | key in KeysWritten(w)
      ensures key in players || key == UndefinedKey
    {
      var a :| a in w && a.key == key;
      var k :| 0 <= k < |w| && w[k] == a;
      WriteKeyIsEntry(env, tier, players, xfac, 0, gameId, k);
    }
  }

  /** Between them the writes fill at least one seat per entry and less than a full game more. */
  lemma {:induction false} SeatCountBounds(env: TicketEnv, tier: GamePriority, players: seq<string>, xfac: map<string, XFacData>, i: nat)
    requires env.room.capacity > 0 && i < |players|
    ensures |players| - i <= SeatCount(env, tier, players, xfac, i) <= |players| - i + env.room.capacity - 1
    decreases |players| - i
  {
    var m := GroupSize(env, tier, players, xfac, i);
    if i + m < |players| {
      SeatCountBounds(env, tier, players, xfac, i + m);
    }
  }

  /** A seat with xFac metadata is seat 0 of a turn of its own, given to a real entry whose
      lookup found an opponent, and carries that lookup's opponent fields. */
  lemma {:induction false} XFacSeatShape(env: TicketEnv, tier: GamePriority, players: seq<string>, xfac: map<string, XFacData>, i: nat, gameId: ObjectId, k: nat)
    requires Seatable(env, tier, players, xfac, i)
    requires k < SeatCount(env, tier, players, xfac, i)
    requires SeatAt(env, tier, players, xfac, i, gameId, k).ticket.metaData.XFacMatch?
    ensures var a := SeatAt(env, tier, players, xfac, i, gameId, k);
      && tier == XFacFirst
      && a.ticket.playerPos == 0
      && HasXFac(LookupXFac(xfac, a.key))
      && a.ticket.metaData == XFacMeta(env, LookupXFac(xfac, a.key))
      && exists e :: i <= e < |players| && a.key == players[e]
    decreases |players| - i
  {
    var m := GroupSize(env, tier, players, xfac, i);
    if k < m {
      assert SingleSeat(tier, players, xfac, i);
      assert SeatAt(env, tier, players, xfac, i, gameId, k).key == players[i];
    } else {
      XFacSeatShape(env, tier, players, xfac, i + m, gameId + 1, k - m);
    }
  }

  /** Game id `gameId` belongs to the first turn only. */
  lemma FirstGameId(env: TicketEnv, tier: GamePriority, players: seq<string>, xfac: map<string, XFacData>, i: nat, gameId: ObjectId, k: nat)
    requires i < |players| && Seatable(env, tier, players, xfac, i)
    requires k < SeatCount(env, tier, players, xfac, i)
    ensures SeatAt(env, tier, players, xfac, i, gameId, k).ticket.gameId == gameId <==> k < GroupSize(env, tier, players, xfac, i)
  {
    var m := GroupSize(env, tier, players, xfac, i);
    if k >= m {
      GameIdRange(env, tier, players, xfac, i + m, gameId + 1, k - m);
    }
  }

  /** ... and no other seat carries its game id. */
  lemma {:induction false} XFacGameIdUnique(env: TicketEnv, tier: GamePriority, players: seq<string>, xfac: map<string, XFacData>, i: nat, gameId: ObjectId, k: nat, j: nat)
    requires Seatable(env, tier, players, xfac, i)
    requires k < SeatCount(env, tier, players, xfac, i) && j < SeatCount(env, tier, players, xfac, i)
    requires SeatAt(env, tier, players, xfac, i, gameId, k).ticket.metaData.XFacMatch?
    requires j != k
    ensures SeatAt(env, tier, players, xfac, i, gameId, j).ticket.gameId != SeatAt(env, tier, players, xfac, i, gameId, k).ticket.gameId
    decreases |players| - i
  {
    var m := GroupSize(env, tier, players, xfac, i);
    FirstGameId(env, tier, players, xfac, i, gameId, j);
    FirstGameId(env, tier, players, xfac, i, gameId, k);
    if k >= m && j >= m {
      XFacGameIdUnique(env, tier, players, xfac, i + m, gameId + 1, k - m, j - m);
    } else if k < m {
      assert SingleSeat(tier, players, xfac, i);
    }
  }

  /** A seat with plain metadata lies in a run of `capacity` consecutive seats holding seats
      0..capacity-1, in order, of its game. */
  lemma {:induction false} FullBlockSeats(env: TicketEnv, tier: GamePriority, players: seq<string>, xfac: map<string, XFacData>, i: nat, gameId: ObjectId, k: nat, j: int)
    requires env.room.capacity > 0
    requires k < SeatCount(env, tier, players, xfac, i)
    requires SeatAt(env, tier, players, xfac, i, gameId, k).ticket.metaData.Standard?
    requires var start := k - SeatAt(env, tier, players, xfac, i, gameId, k).ticket.playerPos;
      start <= j < start + env.room.capacity
    ensures var start := k - SeatAt(env, tier, players, xfac, i, gameId, k).ticket.playerPos;
      && 0 <= start <= k < start + env.room.capacity <= SeatCount(env, tier, players, xfac, i)
      && SeatAt(env, tier, players, xfac, i, gameId, j).ticket.playerPos == j - start
      && SeatAt(env, tier, players, xfac, i, gameId, j).ticket.gameId == SeatAt(env, tier, players, xfac, i, gameId, k).ticket.gameId
    decreases |players| - i
  {
    var m := GroupSize(env, tier, players, xfac, i);
    if k < m {
      assert !SingleSeat(tier, players, xfac, i);
    } else {
      FullBlockSeats(env, tier, players, xfac, i + m, gameId + 1, k - m, j - m);
    }
  }

  /** ... and no seat outside that run carries its game id. */
  lemma {:induction false} FullBlockGameId(env: TicketEnv, tier: GamePriority, players: seq<string>, xfac: map<string, XFacData>, i: nat, gameId: ObjectId, k: nat, j: nat)
    requires env.room.capacity > 0
    requires k < SeatCount(env, tier, players, xfac, i) && j < SeatCount(env, tier, players, xfac, i)
    requires SeatAt(env, tier, players, xfac, i, gameId, k).ticket.metaData.Standard?
    requires SeatAt(env, tier, players, xfac, i, gameId, j).ticket.gameId == SeatAt(env, tier, players, xfac, i, gameId, k).ticket.gameId
    ensures var start := k - SeatAt(env, tier, players, xfac, i, gameId, k).ticket.playerPos;
      start <= j < start + env.room.capacity
    decreases |players| - i
  {
    var m := GroupSize(env, tier, players, xfac, i);
    FirstGameId(env, tier, players, xfac, i, gameId, j);
    FirstGameId(env, tier, players, xfac, i, gameId, k);
    if k >= m && j >= m {
      FullBlockGameId(env, tier, players, xfac, i + m, gameId + 1, k - m, j - m);
    } else if k < m {
      assert !SingleSeat(tier, players, xfac, i);
    }
  }

  // ---------------------------------------------------------------------------------------
  // The plain tier
  // ---------------------------------------------------------------------------------------

  /** The plain tier writes capacity * ceil((n - i) / capacity) seats: the last game is filled
      to capacity even when few entries are left. */
  lemma {:induction false} PlainTierLength(env: TicketEnv, players: seq<string>, xfac: map<string, XFacData>, i: nat)
    requires env.room.capacity > 0
    ensures SeatCount(env, XFacOff, players, xfac, i) == CeilDiv(|players| - i, env.room.capacity) * env.room.capacity
    ensures Games(env, XFacOff, players, xfac, i) == CeilDiv(|players| - i, env.room.capacity)
    decreases |players| - i
  {
    if i < |players| {
      var cap := env.room.capacity;
      PlainTierLength(env, players, xfac, i + cap);
      var c := CeilDiv(|players| - (i + cap), cap);
      assert CeilDiv(|players| - i, cap) == c + 1;
      MulSucc(cap, c);
    }
  }

  /** Seat `k` of the plain tier is seat `k mod capacity` of game `gameId + k div capacity`,
      keyed by entry `i + k` (or "undefined" past the end of the list). */
  lemma {:induction false} PlainTierLayout(env: TicketEnv, players: seq<string>, xfac: map<string, XFacData>, i: nat, gameId: ObjectId, k: nat)
    requires env.room.capacity > 0
    requires k < SeatCount(env, XFacOff, players, xfac, i)
    ensures SeatAt(env, XFacOff, players, xfac, i, gameId, k) ==
      Assignment(KeyAt(players, i + k),
                 SeatTicket(env, gameId + k / env.room.capacity, k % env.room.capacity, Standard(XFacOff, NextRoundIn(env))))
    decreases |players| - i
  {
    var cap := env.room.capacity;
    if k >= cap {
      PlainTierLayout(env, players, xfac, i + cap, gameId + 1, k - cap);
      DivModShift(k, cap);
    } else {
      DivModUnique(k, cap, 0, k);
    }
  }

  /** With a duplicate-free list that does not contain "undefined", the player at index `k`
      ends up with seat `k mod capacity` of game `gameId + k div capacity`. */
  lemma PlainSeatOfPlayer(env: TicketEnv, players: seq<string>, xfac: map<string, XFacData>, gameId: ObjectId, k: nat)
    requires env.room.capacity > 0
    requires NoDup(players) && UndefinedKey !in players
    requires k < |players|
    ensures var dict := Apply(TierWrites(env, XFacOff, players, xfac, 0, gameId));
      players[k] in dict &&
      dict[players[k]] == SeatTicket(env, gameId + k / env.room.capacity, k % env.room.capacity, Standard(XFacOff, NextRoundIn(env)))
  {
    var w := TierWrites(env, XFacOff, players, xfac, 0, gameId);
    SeatCountBounds(env, XFacOff, players, xfac, 0);
    PlainTierLayout(env, players, xfac, 0, gameId, k);
    forall j | k < j < |w|
      ensures w[j].key != w[k].key
    {
      PlainTierLayout(env, players, xfac, 0, gameId, j);
    }
    ApplyLastWrite(w, k);
  }

  /** Two players of the plain tier share a game exactly when their indices lie in the same block. */
  lemma PlainSameGame(env: TicketEnv, players: seq<string>, xfac: map<string, XFacData>, gameId: ObjectId, k1: nat, k2: nat)
    requires env.room.capacity > 0
    requires NoDup(players) && UndefinedKey !in players
    requires k1 < |players| && k2 < |players|
    ensures var dict := Apply(TierWrites(env, XFacOff, players, xfac, 0, gameId));
      players[k1] in dict && players[k2] in dict &&
      (dict[players[k1]].gameId == dict[players[k2]].gameId <==> k1 / env.room.capacity == k2 / env.room.capacity)
  {
    PlainSeatOfPlayer(env, players, xfac, gameId, k1);
    PlainSeatOfPlayer(env, players, xfac, gameId, k2);
  }

  /** In every tier, seat `k` from entry `i` on is keyed by `playerJoined[i + k]`: both loops
      advance `i` once per seat. */
  lemma {:induction false} SeatKey(env: TicketEnv, tier: GamePriority, players: seq<string>, xfac: map<string, XFacData>, i: nat, gameId: ObjectId, k: nat)
    requires Seatable(env, tier, players, xfac, i)
    requires k < SeatCount(env, tier, players, xfac, i)
    ensures SeatAt(env, tier, players, xfac, i, gameId, k).key == KeyAt(players, i + k)
    decreases |players| - i
  {
    var m := GroupSize(env, tier, players, xfac, i);
    if k >= m {
      SeatKey(env, tier, players, xfac, i + m, gameId + 1, k - m);
    }
  }

  /** In every tier (the xFac-first one included), with a duplicate-free list that does not
      contain "undefined", the player at index `k` is written by seat `k` and by no other seat,
      so the dictionary holds seat `k`'s ticket for them. */
  lemma SeatOfPlayer(env: TicketEnv, tier: GamePriority, players: seq<string>, xfac: map<string, XFacData>, gameId: ObjectId, k: nat)
    requires Seatable(env, tier, players, xfac, 0)
    requires NoDup(players) && UndefinedKey !in players
    requires k < |players|
    ensures k < SeatCount(env, tier, players, xfac, 0)
    ensures forall j :: 0 <= j < SeatCount(env, tier, players, xfac, 0) && j != k ==>
      SeatAt(env, tier, players, xfac, 0, gameId, j).key != players[k]
    ensures var dict := Apply(TierWrites(env, tier, players, xfac, 0, gameId));
      players[k] in dict && dict[players[k]] == SeatAt(env, tier, players, xfac, 0, gameId, k).ticket
  {
    var w := TierWrites(env, tier, players, xfac, 0, gameId);
    EveryEntrySeated(env, tier, players, xfac, 0, gameId, k);
    var k' :| 0 <= k' < |w| && SeatAt(env, tier, players, xfac, 0, gameId, k').key == players[k];
    assert players[k] in players;
    SeatKey(env, tier, players, xfac, 0, gameId, k');
    assert k' == k;
    forall j | 0 <= j < |w| && j != k
      ensures SeatAt(env, tier, players, xfac, 0, gameId, j).key != players[k]
    {
      SeatKey(env, tier, players, xfac, 0, gameId, j);
    }
    assert forall j :: k < j < |w| ==> w[j].key != w[k].key;
    ApplyLastWrite(w, k);
  }

  /** In a room without seats the plain tier's loop only ends on an empty list. */
  lemma PlainTierNeedsSeats(env: TicketEnv, players: seq<string>, xfac: map<string, XFacData>)
    requires env.room.capacity <= 0
    ensures Seatable(env, XFacOff, players, xfac, 0) ==> players == []
  {
    if players != [] {
      assert !SingleSeat(XFacOff, players, xfac, 0);
    }
  }
}
