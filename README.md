# Mega contest orchestration, modelled in Dafny

This project models the mega-contest (tournament) core of the RummyMatchingServer:

- the **repository** (`MegaContestRepo.Store`). It keeps the Redis and SQL state the
  contest flow reads and writes: the cached contest list, the join counters, the room hashes,
  the joined-player sets, the per-round ticket queues and player-to-ticket hashes, the
  round-winner sets and the prize-breakup cache;
- the **service** (`MegaContestService.Service`):
  - subscribing a player (contest lookup, room search or creation, entry fee, join);
  - the pre-start configuration of a room (cancel below half fill, otherwise seat the players
    in an xFac-first tier and a plain tier, start the game, arm round 1);
  - the round-to-round step;
  - marking presence and handing out tickets;
  - the prize breakup;
  - the join-counter broadcast;
- the **matchmaking** spec functions (`MegaContestMatchmaking`). `TierWrites` lists, in
  order, the seats that the two nested loops of `generateGameTickets` hand out. `SeatAt` gives
  the same seats one index at a time;
- the **controller** (`MegaContestController`): reading the request, the maintenance and
  blocked-user gates, and the pass-through of the service's answers;
- two small support modules:
  - `Wrappers`: Option, Result, duplicate-free listings and a set enumeration in unspecified
    order;
  - `JsNumber`: JavaScript `parseInt` and `Number#toString` on integers.

State that the source changes in place lives in class fields: the `Store` maps and the
`Service` id counter, timers, game-server calls, broadcasts, active users and assigned
tickets. Methods change those fields under field-granular `modifies` clauses. Each method's
postcondition ties the new state to a specification function of the old state. Outside input
is passed in as parameters:

- the clock (`now`, `xfacNow`, `plainNow`, `later`);
- the payment answer (`balanceDeducted`);
- the xFac lookup (`xfac`);
- the SQL answer (`sql`);
- the user-service flags (`joiningEnable`, `isTester`, `isBlocked`).

A `setTimeout` is recorded as a pending `Timer`. `Service.Fire` runs any pending timer with
the arguments it was armed with.

## Model

| member | source | states |
|---|---|---|
| MegaContestRepo.ListedContest | src/domain/entities/megaContest/megaContest.repo.ts:32-41 | a listed contest has its start in milliseconds, its first game one waiting time later, is never a tournament contest, and has the join count read under the parsed id (0 when there is none); every other field is kept |
| MegaContestRepo.ContestList | src/domain/entities/megaContest/megaContest.repo.ts:26-44 | a missing cache gives the empty list; otherwise the list has one listed contest per cached contest, in order |
| MegaContestRepo.CounterKeyOfCanonicalId | src/domain/entities/megaContest/megaContest.repo.ts:37-39 | a contest id in canonical decimal notation reads its counter under the id itself |
| MegaContestRepo.FindContest | src/domain/entities/megaContest/megaContest.repo.ts:46-50 | None exactly when no contest has the id; otherwise the first contest with that id |
| MegaContestRepo.Store.GetContestList | src/domain/entities/megaContest/megaContest.repo.ts:26-44 | answers the contest list of the current cache and counters |
| MegaContestRepo.Store.GetContestById | src/domain/entities/megaContest/megaContest.repo.ts:46-50 | answers the first listed contest with the id, if any |
| MegaContestRepo.Store.SearchRoom | src/domain/entities/megaContest/megaContest.repo.ts:52-71 | a room is found exactly when its hash holds a full room record (one with `_id`), and it is that record |
| MegaContestRepo.Patched | src/domain/entities/megaContest/megaContest.repo.ts:76-79 | a patched room has the patch's value for each patched field and its old value for every other field; id and contest are kept |
| MegaContestRepo.MergeKeepsIdentity | src/domain/entities/megaContest/megaContest.repo.ts:72-79 | an update never makes a room findable or unfindable and keeps its id and every field it does not name |
| MegaContestRepo.Store.CreateRoom | src/domain/entities/megaContest/megaContest.repo.ts:72-74 | the room's hash becomes the full room record; no other hash changes; rooms stay filed under their own keys |
| MegaContestRepo.Store.UpdateContestRoom | src/domain/entities/megaContest/megaContest.repo.ts:76-79 | the patch is merged into the room's hash, possibly creating a fragment; no other hash changes; a patch that leaves the time slot alone keeps rooms filed under their own keys |
| MegaContestRepo.CreateKeepsFiling | src/domain/entities/megaContest/megaContest.repo.ts:72-74 | writing a room under its own key keeps every stored room filed under its own contest and slot |
| MegaContestRepo.PatchKeepsFiling | src/domain/entities/megaContest/megaContest.repo.ts:76-79 | a patch that does not name the time slot keeps every stored room filed under its own key |
| MegaContestRepo.PatchMovingSlotBreaksFiling | src/domain/entities/megaContest/megaContest.repo.ts:76-79 | a patch that moves a stored room to another time slot breaks that filing, so the condition is needed |
| MegaContestRepo.Store.ExistInContestRoom | src/domain/entities/megaContest/megaContest.repo.ts:81-85 | true exactly when the player is in the room's joined set |
| MegaContestRepo.Store.AddInContestRoom | src/domain/entities/megaContest/megaContest.repo.ts:87-91 | answers 1 for a new member and 0 for an existing one; either way the player is then in the set |
| MegaContestRepo.Store.GetPlayerJoined | src/domain/entities/megaContest/megaContest.repo.ts:93-98 | a duplicate-free listing of exactly the joined set |
| MegaContestRepo.Store.AddContestTickets | src/domain/entities/megaContest/megaContest.repo.ts:100-103 | the tickets are appended to the round's queue |
| MegaContestRepo.Store.AddUserSpecificTickets | src/domain/entities/megaContest/megaContest.repo.ts:105-108 | the dictionary is merged over the round's player-to-ticket hash |
| MegaContestRepo.Store.PopGameTicket | src/domain/entities/megaContest/megaContest.repo.ts:110-113 | takes the last ticket off the round's queue; an empty queue answers None and is left alone |
| MegaContestRepo.PopsUndoPushInReverse | src/domain/entities/megaContest/megaContest.repo.ts:100-113 | popping as many tickets as were pushed gives them back in reverse order and restores the old queue |
| MegaContestRepo.Store.FetchUserSpecificGameTicket | src/domain/entities/megaContest/megaContest.repo.ts:115-120 | answers the player's entry of the round's hash exactly when there is one |
| MegaContestRepo.Store.GetRoundWinners | src/domain/entities/megaContest/megaContest.repo.ts:122-126 | a duplicate-free listing of exactly the round's winner set |
| MegaContestRepo.Store.GetContestPrizeBreakUp | src/domain/entities/megaContest/megaContest.repo.ts:128-146 | a non-empty cached breakup is answered and nothing changes; otherwise the SQL rows are cached and answered, and no SQL answer fails with "No prize breakup found" |
| MegaContestRepo.Store.IncJoinPlayerCounter | src/domain/entities/megaContest/megaContest.repo.ts:153-156 | the counter moves from its old value (0 when absent) by the increment, and the new value is answered |
| MegaContestMatchmaking.TierWrites | src/domain/operations/megaContest/megaContest.service.ts:173-257 | the seat list has exactly `SeatCount` entries |
| MegaContestMatchmaking.TierStep | src/domain/operations/megaContest/megaContest.service.ts:174-257 | one pass of the outer loop hands out its game's seats, followed by the seats of the later passes |
| MegaContestMatchmaking.TurnAdvances | src/domain/operations/megaContest/megaContest.service.ts:181-227 | a pass seats one entry when the xFac lookup finds an opponent and `capacity` entries otherwise |
| MegaContestMatchmaking.ApplyKeys | src/domain/operations/megaContest/megaContest.service.ts:199-252 | the dictionary's keys are exactly the keys written |
| MegaContestMatchmaking.ApplyLastWrite | src/domain/operations/megaContest/megaContest.service.ts:199-252 | a key keeps the ticket of its last write |
| MegaContestMatchmaking.ApplySnoc | src/domain/operations/megaContest/megaContest.service.ts:199-252 | one more write sets one key of the dictionary |
| MegaContestMatchmaking.TicketsCarryRound | src/domain/operations/megaContest/megaContest.service.ts:183-250 | every ticket carries the round, the next-round time (clock + duration + 30 s), the tier, the contest, the start slot, the capacity, the play time, the server and the timeout |
| MegaContestMatchmaking.GameIdRange | src/domain/operations/megaContest/megaContest.service.ts:174-257 | every game id lies among the ids the passes drew |
| MegaContestMatchmaking.FirstGameId | src/domain/operations/megaContest/megaContest.service.ts:174-257 | the first id drawn belongs exactly to the first pass's seats |
| MegaContestMatchmaking.EveryEntrySeated | src/domain/operations/megaContest/megaContest.service.ts:174-257 | every entry of the list gets a seat |
| MegaContestMatchmaking.WriteKeyIsEntry | src/domain/operations/megaContest/megaContest.service.ts:199-252 | every seat is keyed by an entry of the list or by "undefined" |
| MegaContestMatchmaking.DictionaryKeys | src/domain/operations/megaContest/megaContest.service.ts:170-268 | every entry is a key of the ticket dictionary and nothing else is, apart from "undefined" |
| MegaContestMatchmaking.SeatCountBounds | src/domain/operations/megaContest/megaContest.service.ts:174-257 | with a positive capacity, the number of seats is at least the number of entries and at most `capacity - 1` more |
| MegaContestMatchmaking.XFacSeatShape | src/domain/operations/megaContest/megaContest.service.ts:203-227 | an xFac seat occurs only in the xFac-first tier and has position 0; it belongs to an entry whose lookup found an opponent and carries that opponent's fields |
| MegaContestMatchmaking.XFacGameIdUnique | src/domain/operations/megaContest/megaContest.service.ts:203-227 | no other seat shares an xFac seat's game id |
| MegaContestMatchmaking.FullBlockSeats | src/domain/operations/megaContest/megaContest.service.ts:182-202 | a plain seat lies in a run of `capacity` consecutive seats with positions 0 to `capacity - 1` and one game id |
| MegaContestMatchmaking.FullBlockGameId | src/domain/operations/megaContest/megaContest.service.ts:234-255 | no seat outside that run has the same game id |
| MegaContestMatchmaking.PlainTierLength | src/domain/operations/megaContest/megaContest.service.ts:230-257 | the plain tier plays ceil(n / capacity) games, each filled to capacity |
| MegaContestMatchmaking.PlainTierLayout | src/domain/operations/megaContest/megaContest.service.ts:230-257 | plain seat k is seat `k mod capacity` of game `gameId + k div capacity`, keyed by entry k or by "undefined" past the end |
| MegaContestMatchmaking.PlainSeatOfPlayer | src/domain/operations/megaContest/megaContest.service.ts:230-257 | with distinct players, player k gets seat `k mod capacity` of game `gameId + k div capacity` |
| MegaContestMatchmaking.PlainSameGame | src/domain/operations/megaContest/megaContest.service.ts:230-257 | two plain players share a game exactly when their indices fall in the same block of `capacity` |
| MegaContestMatchmaking.SeatKey | src/domain/operations/megaContest/megaContest.service.ts:174-257 | in either tier, seat k is keyed by entry k of the list (by "undefined" past its end), since both loops move `i` on once per seat |
| MegaContestMatchmaking.SeatOfPlayer | src/domain/operations/megaContest/megaContest.service.ts:170-268 | in either tier, the xFac-first one included, with distinct players none of whom is "undefined": player k is keyed by seat k only, and the dictionary holds seat k's ticket for them |
| MegaContestMatchmaking.PlainTierNeedsSeats | src/domain/operations/megaContest/megaContest.service.ts:230-257 | in a room without seats the plain tier's loop ends only on an empty list |
| MegaContestService.NewRoom | src/domain/operations/megaContest/megaContest.service.ts:89-104 | a new room accepts joining in round 1, plays `duration` seconds per game, has its next round 30 s after the start, and is filed under its contest and start slot |
| MegaContestService.RoomStepResult | src/domain/operations/megaContest/megaContest.service.ts:52-56 | the room found is used as it is; a created room accepts joining |
| MegaContestService.Service.CreateContestRoom | src/domain/operations/megaContest/megaContest.service.ts:89-121 | draws one id and writes the new room; a start already reached fails with "Time over" and arms nothing; otherwise it arms the pre-start step for the time left |
| MegaContestService.Service.FindOrCreateRoom | src/domain/operations/megaContest/megaContest.service.ts:52-56 | a found room changes nothing; otherwise the room is created as above |
| MegaContestService.Service.JoinRoom | src/domain/operations/megaContest/megaContest.service.ts:57-82 | a room not accepting joins, or an unpaid fee, is refused with nothing changed; an existing member is answered "User failed to join in this contest" with the room; a new member is added, the counter goes up by one, and the answer carries the game server |
| MegaContestService.Service.JoinedWhenAddressed | src/domain/operations/megaContest/megaContest.service.ts:67-82 | the answer carries a server address exactly when the player was newly added; any answer with data means the player is in the room, and has code OK |
| MegaContestService.Service.EnterContest | src/domain/operations/megaContest/megaContest.service.ts:48-82 | a player already joined is refused with nothing changed; otherwise the room step and then the join step, and a failed room step ("Time over") is the answer |
| MegaContestService.Service.SubToContest | src/domain/operations/megaContest/megaContest.service.ts:40-87 | an unlisted or not yet open contest is refused with nothing changed; otherwise the contest is entered as above |
| MegaContestService.FillBelowHalfIff | src/domain/operations/megaContest/megaContest.service.ts:135-137 | with a positive maximum, the fill check cancels exactly when twice the joined count is below the maximum |
| MegaContestService.XFacCount | src/domain/operations/megaContest/megaContest.service.ts:143-148 | the xFac-first tier gets the free places (`maxUser - joined`) when positive, capped at the joined count, and none otherwise |
| MegaContestService.SharesPartition | src/domain/operations/megaContest/megaContest.service.ts:143-149 | the two tiers split the joined list in order; a full room seats everybody in the plain tier |
| MegaContestService.SeatingEndsOnShares | src/domain/operations/megaContest/megaContest.service.ts:143-149 | with a listed contest and a room that is not cancelled, the seating of any listing of the joined set ends exactly when the room has seats, nobody joined, or every player has an xFac opponent and all fit in the free places |
| MegaContestService.StoreTicketsMerges | src/domain/operations/megaContest/megaContest.service.ts:264-267 | an empty dictionary is not stored; a non-empty one overrides its players and keeps every other entry of the round's hash |
| MegaContestService.StoredTicketsPersist | src/domain/operations/megaContest/megaContest.service.ts:264-267 | a stored ticket stays readable, unchanged unless the new dictionary names its player |
| MegaContestService.SeatedPlayersHaveTickets | src/domain/operations/megaContest/megaContest.service.ts:170-268 | after the tier is stored, every player given to it has their dictionary ticket in the round's hash |
| MegaContestService.Service.FreshId | src/domain/operations/megaContest/megaContest.service.ts:175-175 | answers an id never answered before and moves the counter on |
| MegaContestService.Service.JoinGame | src/domain/operations/megaContest/megaContest.service.ts:200-200 | records the game-server call |
| MegaContestService.Service.SeatTurn | src/domain/operations/megaContest/megaContest.service.ts:174-228 | one pass of the outer loop: the index moves on by the group size, and the pass's seats are sent and written in order |
| MegaContestService.Service.SeatXFacGame | src/domain/operations/megaContest/megaContest.service.ts:203-227 | an opponent found: one seat, sent and written |
| MegaContestService.Service.SeatFullGame | src/domain/operations/megaContest/megaContest.service.ts:181-202 | no opponent: `capacity` seats of one game, sent and written in order |
| MegaContestService.Service.SeatAll | src/domain/operations/megaContest/megaContest.service.ts:173-258 | the loop sends exactly the tier's seats in order, the dictionary is their last-write fold, and one id is drawn per game |
| MegaContestService.Service.GenerateGameTickets | src/domain/operations/megaContest/megaContest.service.ts:167-269 | as `SeatAll`, and the round's hash gets the dictionary when it is non-empty |
| MegaContestService.Service.SeatShares | src/domain/operations/megaContest/megaContest.service.ts:143-149 | the xFac-first tier seats the entries that fit in the free places, the plain tier the rest |
| MegaContestService.Service.StartedRoomSeatsEveryone | src/domain/operations/megaContest/megaContest.service.ts:143-149 | after seating, every joined player has a round-1 ticket |
| MegaContestService.Service.ConfigureRoom | src/domain/operations/megaContest/megaContest.service.ts:126-164 | the room goes to pre-starting; it is cancelled exactly when below half fill; it is started exactly when not cancelled and the contest is listed; a started room gets every player seated, the game-start state and the round-1 timer; otherwise nothing else changes |
| MegaContestService.Service.PreStartContestConfig | src/domain/operations/megaContest/megaContest.service.ts:123-165 | as `ConfigureRoom`, for the contest the list holds; requires exactly that the seating loops end for every listing of the joined set |
| MegaContestService.Service.StartNextRound | src/domain/operations/megaContest/megaContest.service.ts:339-357 | after the last round nothing changes; otherwise the winners (each once) are seated in the plain tier for the next round, the room's round and next-round time are written, and the next round is armed |
| MegaContestService.Service.GetGameTicket | src/domain/operations/megaContest/megaContest.service.ts:321-328 | takes the last ticket of round 1's queue; an empty queue fails with "Unable to get ticket" and is left alone |
| MegaContestService.Service.GetUserSpecificTicket | src/domain/operations/megaContest/megaContest.service.ts:330-337 | the player's round-1 ticket exactly when one is stored for them |
| MegaContestService.ChosenTicket | src/domain/operations/megaContest/megaContest.service.ts:296-301 | the player's own ticket first; otherwise the queue's last ticket, and an empty queue fails |
| MegaContestService.Service.TakeTicket | src/domain/operations/megaContest/megaContest.service.ts:296-301 | answers the chosen ticket and pops the queue only when the queue supplied it |
| MegaContestService.Service.MarkPresence | src/domain/operations/megaContest/megaContest.service.ts:271-319 | no room, too early or cancelled is refused and nothing changes; a player already present gets the saved ticket; otherwise the ticket taken is answered, the player becomes active, and the ticket is saved for them |
| MegaContestService.Service.MarkPresenceTwice | src/domain/operations/megaContest/megaContest.service.ts:281-286 | with rooms filed under their own keys, once a call has answered a ticket, a second call for the same room answers the same ticket as "Presence already marked", takes no other ticket, and leaves exactly the state the first call left |
| MegaContestService.Service.GetContestPrizeBreakUp | src/domain/operations/megaContest/megaContest.service.ts:363-384 | an unlisted contest has an empty breakup; otherwise the repository's breakup, and its failure is answered with the exception code |
| MegaContestService.ChangedProperties | src/domain/operations/megaContest/megaContest.service.ts:417-431 | an identical snapshot reports nothing; a key not in the new snapshot is never reported; a key new to it always is; with no old snapshot every key is |
| MegaContestService.Service.GetContestThatChanged | src/domain/operations/megaContest/megaContest.service.ts:417-431 | lists each changed key exactly once |
| MegaContestService.Deltas | src/domain/operations/megaContest/megaContest.service.ts:397-404 | one entry per changed contest, in order, with its new count |
| MegaContestService.Service.SendCounters | src/domain/operations/megaContest/megaContest.service.ts:386-415 | broadcasts the changed counters only when some changed, and always re-arms itself with the new snapshot after 2 s |
| MegaContestService.Service.Fire | src/domain/operations/megaContest/megaContest.service.ts:413-413 | runs one pending timer (armed at service.ts lines 114, 163, 356 or 413) with the other timers as the list its step starts from: a pre-start timer has the whole outcome of `PreStartContestConfig`, a next-round timer that of `StartNextRound`, a counter timer that of `SendCounters`, and the fields the step does not write keep their values |
| MegaContestService.Service.GetContestList | src/domain/operations/megaContest/megaContest.service.ts:34-38 | the repository's contest list |
| MegaContestController.LoggedInUserId | src/domain/operations/megaContest/megaContest.controller.ts:17-17 | the profile's `mid`, else 0 |
| MegaContestController.PrizeBreakUpContestId | src/domain/operations/megaContest/megaContest.controller.ts:23-23 | `parseInt` of the query's `contestId`, else 0 |
| MegaContestController.PrizeBreakUpIdRoundTrip | src/domain/operations/megaContest/megaContest.controller.ts:23-25 | a decimal contest id is parsed to its value and looked up under the same text |
| MegaContestController.SubscribeGate | src/domain/operations/megaContest/megaContest.controller.ts:36-44 | maintenance refuses exactly the non-testers while joining is disabled; a blocked user is refused exactly when past that gate; all others get through |
| MegaContestController.Controller.GetContest | src/domain/operations/megaContest/megaContest.controller.ts:16-20 | the service's contest list |
| MegaContestController.Controller.GetContestPrizeBreakUp | src/domain/operations/megaContest/megaContest.controller.ts:22-27 | the service's prize breakup for the id read from the query |
| MegaContestController.Controller.SubToContest | src/domain/operations/megaContest/megaContest.controller.ts:29-52 | a gated request gets the gate's answer and changes nothing; any other request gets the service's subscription |
| MegaContestController.Controller.MarkPresence | src/domain/operations/megaContest/megaContest.controller.ts:54-60 | the service's presence answer, passed on |

## Left out

- I/O and logging: the Redis and SQL clients, socket emits, console and log calls, key
  expiry (`ONE_WEEK`), and JSON encoding of tickets and room fields. Room fields are stored as
  integers. The source writes them as strings and reads them back with `parseInt`, which
  gives the same integer (`JsNumber.ParseIntOfIntToString`). In JavaScript that holds for
  integers up to 2^53 in magnitude (beyond that not every integer is a number), and `String`
  switches to exponent notation from 1e21. The model's integers are unbounded and always
  render in plain decimal.
- Timers: `setTimeout` is recorded as a `Timer` holding its arguments and delay. The delay is
  only recorded: `Service.Fire` lets the caller fire any pending timer, in any order. It does
  not model the event loop or the passage of time.
- Concurrency: every operation runs atomically. The source awaits between reads and writes,
  so two requests can interleave.
- ObjectIds are drawn from a counter (`Service.nextId`).
- Outside services are parameters:
  - the xFac lookup and the balance deduction;
  - the tester and blocked checks;
  - the clock and the game-server address.
  Their own checks are not modelled.
- `UserService` state (`markActiveUser`, `saveAssignedTicket`, `getRunningContest`) is held
  as two `Service` fields.
- `getContestList` wraps the list as `{match_contests: …}`. The model answers the list and
  ignores `userMid`, which the source does not use either.
- MegaContestService.FillBelowHalf: computes `joined / maxUser * 100 < 50` on exact reals,
  not IEEE doubles. A zero maximum divides to NaN or Infinity and never cancels.
- MegaContestService.Service.PreStartContestConfig: in a room whose capacity is 0 or less, a
  seating turn without an xFac opponent writes no seat and does not advance, so the loop never
  ends. The step requires `SeatingEnds`: the room has seats, nobody joined, the room is
  cancelled, or every joined player has an xFac opponent and all of them fit in the free places
  (`maxUser - joined >= joined`, so the plain share is empty). Without a listed contest it is
  enough that some place is free, because the first xFac ticket then stops the step. The
  joined set is listed in an unspecified order, so this is the condition under which the
  source ends for every listing.
- MegaContestService.Service.StartNextRound: requires a positive capacity unless this is the
  last round or nobody won. The next round seats the winners in the plain tier only, whose loop
  never ends on a non-empty list when the capacity is 0 or less.
- MegaContestService.Service.ConfigureRoom: on a missing contest the source throws a
  TypeError part way through. The model stops there as `Aborted`, keeping the writes made
  before that point. With players joined, the source first draws an ObjectId for the first
  game and calls `getXfacData` (xFac-first tier) or `getAvailableServer`. Then it reads
  `contest.Duration` and throws. The model draws no id and makes no lookup. Ids are only ever
  used fresh, so the dropped draw is not observable in the model.
- Room state order: the model does not prove, as an invariant, that a room's state only moves
  forward or that a cancelled room never changes again. `ConfigureRoom` writes
  PRESTARTING_CONFIG whatever the state was (service.ts line 129). The order holds in the
  model only because `Fire` removes each timer as it fires it, and `createContestRoom` runs
  only when the key holds no stored room.
- MegaContestService.Service.MarkPresence: a player marked present without a saved ticket
  makes the source throw a TypeError, which it returns as the answer. The model answers
  `Response(None, None, Exception)`.
- MegaContestService.Service.GetContestPrizeBreakUp: the source's exception answer carries
  the data `""`; the model's carries none.
- MegaContestController.Controller.SubToContest: the source's `catch` swallows exceptions
  without calling back; the model has no exceptions on this path.
- Iteration order: `for … in` lists the counter keys in a JavaScript-defined order. `smembers` order is unspecified. The model lists these through
  an enumeration of unspecified order and proves only membership and the absence of
  duplicates.
- `addContestTickets` is modelled, but nothing in the core calls it: that call is commented
  out in `generateGameTickets`.

Places where the code departs from the intended contest rules (the model follows the code):

- No room state beyond GAME_START is ever written. A finished tournament is not marked
  completed.
- `createContestRoom` writes the room before it checks "Time over", so a late first
  subscriber leaves a stored room without a pre-start timer.
- The plain tier always fills its last game to capacity. Seats past the end of the list are
  keyed by the JavaScript `undefined` key ("undefined"), and `joinGame` is called for them.
- `markPresence` always reads round 1's tickets and does not refuse a room that is still in
  PRESTARTING_CONFIG.
- `startNextRound` does not check for a cancelled room.
