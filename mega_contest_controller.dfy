/** The mega-contest request handlers: they read the request, apply the maintenance and
    blocked-user gates, and hand the rest to the service, whose answer goes back to the
    caller as it is. */
module MegaContestController {
  import opened Wrappers
  import opened JsNumber
  import opened MegaContestDto
  import opened MegaContestRepo
  import opened MegaContestService

  /** The part of a request's user profile the contest list reads. */
  datatype Profile = Profile(mid: Option<int>)

  /** The logged-in user's id: the profile's `mid`, or 0 when the request has no profile or
      the profile has no `mid`. */
  function LoggedInUserId(profile: Option<Profile>): (id: int)
    ensures profile.Some? && profile.value.mid.Some? ==> id == profile.value.mid.value
    ensures profile.None? || profile.value.mid.None? ==> id == 0
  {
    match profile
    case Some(Profile(Some(mid))) => mid
    case _ => 0
  }

  /** The contest id of a prize-breakup request: `parseInt` of the `contestId` query
      parameter, or 0 when the request has no query or no such parameter. A present but
      unparsable parameter gives NaN. */
  function PrizeBreakUpContestId(query: Option<map<string, string>>): (n: Number)
    ensures query.None? || "contestId" !in query.value ==> n == Finite(0)
    ensures query.Some? && "contestId" in query.value ==> n == ParseInt(query.value["contestId"])
  {
    if query.Some? && "contestId" in query.value then ParseInt(query.value["contestId"]) else Finite(0)
  }

  /** A contest id sent in its decimal notation is looked up under that same notation. */
  lemma PrizeBreakUpIdRoundTrip(query: Option<map<string, string>>, n: int)
    requires query.Some? && "contestId" in query.value && query.value["contestId"] == IntToString(n)
    ensures PrizeBreakUpContestId(query) == Finite(n)
    ensures NumberToString(PrizeBreakUpContestId(query)) == query.value["contestId"]
  {
    ParseIntOfIntToString(n);
  }

  /** The gates in front of a subscription: while joining is disabled only testers get
      through; then a blocked user is refused. `None` lets the request through to the
      service. */
  function SubscribeGate(joiningEnable: bool, isTester: bool, isBlocked: bool): (r: Option<Response<Subscription>>)
    ensures r == Some(Response(None, Some("Server Under Maintenance"), ServerMaintenance)) <==> !joiningEnable && !isTester
    ensures r == Some(Rejection("User is blocked")) <==> (joiningEnable || isTester) && isBlocked
    ensures r.None? <==> (joiningEnable || isTester) && !isBlocked
  {
    if !joiningEnable && !isTester then Some(Response(None, Some("Server Under Maintenance"), ServerMaintenance))
    else if isBlocked then Some(Rejection("User is blocked"))
    else None
  }

  class Controller {
    const service: Service

    constructor (service: Service)
      ensures this.service == service
    {
      this.service := service;
    }

    /** getContest: the contest list, for the logged-in user or user 0. */
    method GetContest(profile: Option<Profile>) returns (list: seq<Contest>)
      ensures list == ContestList(service.repo.contestCache, service.repo.counters)
    {
      list := service.GetContestList(LoggedInUserId(profile));
    }

    /** getContestPrizeBreakUp: the service's answer for the id read from the query. */
    method GetContestPrizeBreakUp(query: Option<map<string, string>>, sql: Option<seq<PrizeRow>>)
      returns (resp: Response<PrizeAnswer>)
      modifies service.repo`prizeCache
      ensures service.PrizeOutcome(PrizeBreakUpContestId(query), sql, resp)
    {
      resp := service.GetContestPrizeBreakUp(PrizeBreakUpContestId(query), sql);
    }

    /** subToContest: a request the gates refuse changes nothing; any other is the service's
        subscription. `joiningEnable`, `isTester` and `isBlocked` are the server flag and the
        user service's answers. */
    method SubToContest(contestId: string, user: User, joiningEnable: bool, isTester: bool, isBlocked: bool,
                        now: int, balanceDeducted: bool)
      returns (resp: Response<Subscription>)
      modifies service`nextId, service`timers, service.repo`rooms, service.repo`joined, service.repo`counters
      ensures FiledUnderOwnKey(old(service.repo.rooms)) ==> FiledUnderOwnKey(service.repo.rooms)
      ensures var gate := SubscribeGate(joiningEnable, isTester, isBlocked);
        gate.Some? ==>
          && resp == gate.value
          && service.nextId == old(service.nextId) && service.timers == old(service.timers)
          && service.repo.rooms == old(service.repo.rooms) && service.repo.joined == old(service.repo.joined)
          && service.repo.counters == old(service.repo.counters)
      ensures SubscribeGate(joiningEnable, isTester, isBlocked).None? ==>
        service.SubscribeOutcome(contestId, user, now, balanceDeducted, resp)
    {
      var gate := SubscribeGate(joiningEnable, isTester, isBlocked);
      if gate.Some? {
        return gate.value;
      }
      resp := service.SubToContest(contestId, user, now, balanceDeducted);
    }

    /** markPresence: the service's answer, passed on. */
    method MarkPresence(contestId: string, gameStartTime: int, user: User) returns (resp: Response<Ticket>)
      modifies service.repo`ticketQueues, service`activeUsers, service`assignedTickets
      ensures service.PresenceOutcome(contestId, gameStartTime, user, resp)
    {
      resp := service.MarkPresence(contestId, gameStartTime, user);
    }
  }
}
