/**
 * The admission pipeline of server.go's PostData, without HTTP: a request
 * that could not be decoded is `None`; otherwise the input goes through
 * validation, the quota lookup, the rate check and the store, in that order,
 * and the first failure decides the reply.
 */
module Api {
  import opened Wrappers
  import opened Limit
  import opened Store
  import opened Logic
  import opened Utils

  /** What PostData answers, one constructor per distinct failure. */
  datatype Reply =
    | Created
    | ServerError
    | ValidationError
    | NoQuota
    | QuotaExceeded(reason: QuotaError)
    | StorageError(cause: StoreError)

  /** The HTTP status PostData writes for each reply. */
  function StatusCode(reply: Reply): (code: int)
    ensures code == 201 <==> reply == Created
    ensures code == 500 <==> reply == ServerError
    ensures code == 400 <==> reply == ValidationError
    ensures code == 403 <==> reply.NoQuota? || reply.QuotaExceeded? || reply.StorageError?
  {
    match reply
    case Created => 201
    case ServerError => 500
    case ValidationError => 400
    case _ => 403
  }

  datatype InputError = MissingIdentifiers

  /** The server's table of quotas; the store it writes to is passed in by the caller. */
  class Server {
    const userQuotas: map<int, Quota>

    ghost predicate Valid()
    {
      forall k :: k in userQuotas ==> userQuotas[k].Valid()
    }

    /** newServer: the bootstrap table. */
    constructor (now: int)
      ensures Bootstrapped(userQuotas, now) && Valid()
      ensures fresh(LimitersOf(userQuotas))
    {
      var quotas := BootstrapUserQuotas(now);
      userQuotas := quotas;
    }

    /** validateInput: zero stands for a missing field, so both IDs must be non-zero. */
    function ValidateInput(input: Input): (r: Outcome<InputError>)
      ensures r != Pass <==> input.uniqueId == 0 || input.userId == 0
    {
      if input.uniqueId == 0 || input.userId == 0 then Fail(MissingIdentifiers) else Pass
    }

    /** The input passes validation and its user has a quota: the rate check is reached. */
    predicate ReachesRateCheck(request: Option<Input>)
    {
      request.Some? && ValidateInput(request.value) == Pass && request.value.userId in userQuotas
    }

    /** What the rate check decides for a request that reaches it, from the limiters' current state. */
    function RateDecision(request: Option<Input>, now: int): TierResult
      requires ReachesRateCheck(request)
      reads userQuotas[request.value.userId].Limiters()
    {
      var q := userQuotas[request.value.userId];
      CheckBoth(q.minuteLimiter.maxRequests, q.monthlyLimiter.maxRequests,
                q.minuteLimiter.State(), q.monthlyLimiter.State(), now)
    }

    /** PostData: validate, look up the quota, check the rate, store the ID. */
    method PostData(request: Option<Input>, store: MemoryStore, now: int) returns (reply: Reply)
      requires Valid()
      modifies store, LimitersOf(userQuotas)
      // failures before the rate check change no limiter and no stored ID
      ensures !ReachesRateCheck(request) ==> unchanged(store) && unchanged(LimitersOf(userQuotas))
      ensures request.None? ==> reply == ServerError
      ensures request.Some? && ValidateInput(request.value) != Pass ==> reply == ValidationError
      ensures request.Some? && ValidateInput(request.value) == Pass && request.value.userId !in userQuotas ==>
                reply == NoQuota
      // the rate check updates exactly the requesting user's two limiters
      ensures ReachesRateCheck(request) ==>
                var q := userQuotas[request.value.userId];
                var t := old(RateDecision(request, now));
                q.minuteLimiter.State() == t.minute && q.monthlyLimiter.State() == t.monthly &&
                (forall l :: l in LimitersOf(userQuotas) && l !in q.Limiters() ==> l.State() == old(l.State()))
      // a rate failure leaves the store alone
      ensures ReachesRateCheck(request) && old(RateDecision(request, now)).outcome != Pass ==>
                reply == QuotaExceeded(old(RateDecision(request, now)).outcome.error) && unchanged(store)
      // past the rate check the ID is stored; a duplicate is refused though the budget is already spent
      ensures ReachesRateCheck(request) && old(RateDecision(request, now)).outcome == Pass ==>
                store.kv == old(store.kv) + {request.value.uniqueId} &&
                reply == (if request.value.uniqueId in old(store.kv) then StorageError(DuplicatedData) else Created)
      // created only when every step succeeded
      ensures reply == Created <==>
                ReachesRateCheck(request) && old(RateDecision(request, now)).outcome == Pass &&
                request.value.uniqueId !in old(store.kv)
    {
      if request.None? {
        return ServerError;
      }
      var input := request.value;
      if ValidateInput(input) != Pass {
        return ValidationError;
      }
      if input.userId !in userQuotas {
        return NoQuota;
      }
      var quota := userQuotas[input.userId];
      var err := input.CheckRate(quota, now);
      if err != Pass {
        return QuotaExceeded(err.error);
      }
      var stored := input.Accept(store);
      if stored != Pass {
        return StorageError(stored.error);
      }
      return Created;
    }
  }

  /**
   * The handler test's requests, in order, on a fresh server and an empty store
   * at one instant: a valid input, three inputs with a zero ID, and a user
   * without a quota.
   */
  method PostDataScenario(now: int) returns (codes: seq<int>)
    ensures codes == [201, 400, 400, 400, 403]
  {
    var server := new Server(now);
    var store := new MemoryStore();
    var r1 := server.PostData(Some(NewInput(1, 1)), store, now);
    var r2 := server.PostData(Some(NewInput(0, 1)), store, now);
    var r3 := server.PostData(Some(NewInput(1, 0)), store, now);
    var r4 := server.PostData(Some(NewInput(0, 0)), store, now);
    var r5 := server.PostData(Some(NewInput(2, 3)), store, now);
    assert r5 == NoQuota;
    codes := [StatusCode(r1), StatusCode(r2), StatusCode(r3), StatusCode(r4), StatusCode(r5)];
  }

  /**
   * Budget accounting through the handler, all within one minute: user 1
   * (minute capacity 1) is refused a second request by the minute tier, which
   * leaves the monthly counter at one; user 2 resubmits an ID, which the store
   * refuses after both of user 2's counters have already been charged.
   */
  method BudgetScenario(now: int) returns (replies: seq<Reply>, monthlyOfUser1: int, minuteOfUser2: int)
    ensures replies == [Created, QuotaExceeded(MinuteLimitExceeded), Created, StorageError(DuplicatedData)]
    ensures monthlyOfUser1 == 1 && minuteOfUser2 == 2
  {
    var server := new Server(now);
    var store := new MemoryStore();
    var r1 := server.PostData(Some(NewInput(10, 1)), store, now);
    var r2 := server.PostData(Some(NewInput(11, 1)), store, now);
    var r3 := server.PostData(Some(NewInput(20, 2)), store, now);
    var r4 := server.PostData(Some(NewInput(20, 2)), store, now);
    replies := [r1, r2, r3, r4];
    monthlyOfUser1 := server.userQuotas[1].monthlyLimiter.requestsCount;
    minuteOfUser2 := server.userQuotas[2].minuteLimiter.requestsCount;
  }
}
