/**
 * The request input and the two-tier quota of logic.go. A Quota holds
 * references to two limiters, so a Quota copied by value still updates the
 * limiters of the quota it was copied from.
 */
module Logic {
  import opened Wrappers
  import opened Limit
  import opened Store

  /** The lease cycle given to the monthly limiter: thirty days. */
  const Month: int := 24 * 30 * Hour

  datatype QuotaError = MinuteLimitExceeded | MonthlyLimitExceeded

  /** The decision of both tiers and the windows of the two limiters afterwards. */
  datatype TierResult = TierResult(outcome: Outcome<QuotaError>, minute: Window, monthly: Window)

  /**
   * checkRate on limiter windows: the minute tier first; the monthly tier is
   * consulted only when the minute tier admits.
   */
  function CheckBoth(minuteCap: int, monthlyCap: int, minute: Window, monthly: Window, now: int): (r: TierResult)
    // the minute limiter is always consulted
    ensures r.minute == Step(minuteCap, minute, now).1
    ensures r.outcome == Fail(MinuteLimitExceeded) <==> !Step(minuteCap, minute, now).0
    // a request the minute tier denies does not touch the monthly budget
    ensures !Step(minuteCap, minute, now).0 ==> r.monthly == monthly
    ensures Step(minuteCap, minute, now).0 ==> r.monthly == Step(monthlyCap, monthly, now).1
    // a request the monthly tier denies has still used up minute budget
    ensures r.outcome == Fail(MonthlyLimitExceeded) <==>
              Step(minuteCap, minute, now).0 && !Step(monthlyCap, monthly, now).0
    ensures r.outcome == Pass <==> Step(minuteCap, minute, now).0 && Step(monthlyCap, monthly, now).0
    // inside both windows, a success uses exactly one unit of each tier
    ensures r.outcome == Pass && now - minute.lastReset < Minute ==> r.minute.count == minute.count + 1
    ensures r.outcome == Pass && now - monthly.lastReset < Minute ==> r.monthly.count == monthly.count + 1
  {
    var (minuteOk, minute') := Step(minuteCap, minute, now);
    if !minuteOk then TierResult(Fail(MinuteLimitExceeded), minute', monthly)
    else
      var (monthlyOk, monthly') := Step(monthlyCap, monthly, now);
      if !monthlyOk then TierResult(Fail(MonthlyLimitExceeded), minute', monthly')
      else TierResult(Pass, minute', monthly')
  }

  /**
   * Because every limiter resets on the one-minute threshold, the monthly tier
   * is refilled a minute after its last reset, like the minute tier.
   */
  lemma MonthlyTierRefillsAfterOneMinute(minuteCap: int, monthlyCap: int, minute: Window, monthly: Window, now: int)
    requires 1 <= minuteCap && 1 <= monthlyCap
    requires now - minute.lastReset >= Minute && now - monthly.lastReset >= Minute
    ensures CheckBoth(minuteCap, monthlyCap, minute, monthly, now) ==
              TierResult(Pass, Window(1, now), Window(1, now))
  {
  }

  /** Quota: a user's monthly and minute limiters. */
  datatype Quota = Quota(userId: int, monthlyLimiter: RateLimiter, minuteLimiter: RateLimiter) {

    /** The two tiers are separate objects and share no counter. */
    predicate Valid()
    {
      monthlyLimiter != minuteLimiter
    }

    function Limiters(): set<RateLimiter>
    {
      {monthlyLimiter, minuteLimiter}
    }

    /** The state NewQuota leaves: the given capacities, the two cycles, both counters zero at `now`. */
    ghost predicate Provisioned(monthlyLimit: int, minuteLimit: int, now: int)
      reads monthlyLimiter, minuteLimiter
    {
      Valid() &&
      monthlyLimiter.maxRequests == monthlyLimit && monthlyLimiter.leaseCycle == Month &&
      monthlyLimiter.State() == Window(0, now) &&
      minuteLimiter.maxRequests == minuteLimit && minuteLimiter.leaseCycle == Minute &&
      minuteLimiter.State() == Window(0, now)
    }

    /** checkMonthly: MonthlyLimitExceeded iff the monthly limiter denies. */
    method CheckMonthly(now: int) returns (err: Outcome<QuotaError>)
      modifies monthlyLimiter
      ensures (err == Pass, monthlyLimiter.State()) == Step(monthlyLimiter.maxRequests, old(monthlyLimiter.State()), now)
      ensures err != Pass ==> err == Fail(MonthlyLimitExceeded)
      ensures Valid() ==> unchanged(minuteLimiter)
    {
      var allowed := monthlyLimiter.Allow(now);
      if !allowed {
        return Fail(MonthlyLimitExceeded);
      }
      return Pass;
    }

    /** checkMinute: MinuteLimitExceeded iff the minute limiter denies. */
    method CheckMinute(now: int) returns (err: Outcome<QuotaError>)
      modifies minuteLimiter
      ensures (err == Pass, minuteLimiter.State()) == Step(minuteLimiter.maxRequests, old(minuteLimiter.State()), now)
      ensures err != Pass ==> err == Fail(MinuteLimitExceeded)
      ensures Valid() ==> unchanged(monthlyLimiter)
    {
      var allowed := minuteLimiter.Allow(now);
      if !allowed {
        return Fail(MinuteLimitExceeded);
      }
      return Pass;
    }
  }

  /** NewQuota: two freshly allocated limiters, monthly with a thirty-day cycle and minute with a one-minute cycle. */
  method NewQuota(userId: int, monthlyLimit: int, minuteLimit: int, now: int) returns (quota: Quota)
    ensures quota.userId == userId
    ensures fresh(quota.monthlyLimiter) && fresh(quota.minuteLimiter)
    ensures quota.Provisioned(monthlyLimit, minuteLimit, now)
  {
    var monthlyLimiter := new RateLimiter(monthlyLimit, Month, now);
    var minuteLimiter := new RateLimiter(minuteLimit, Minute, now);
    quota := Quota(userId, monthlyLimiter, minuteLimiter);
  }

  /** Input: the unique ID of one data item and the user submitting it. */
  datatype Input = Input(uniqueId: int, userId: int) {

    /** checkRate: the minute check, then (only if it passed) the monthly check. */
    method CheckRate(quota: Quota, now: int) returns (err: Outcome<QuotaError>)
      requires quota.Valid()
      modifies quota.minuteLimiter, quota.monthlyLimiter
      ensures TierResult(err, quota.minuteLimiter.State(), quota.monthlyLimiter.State()) ==
                CheckBoth(quota.minuteLimiter.maxRequests, quota.monthlyLimiter.maxRequests,
                          old(quota.minuteLimiter.State()), old(quota.monthlyLimiter.State()), now)
    {
      err := quota.CheckMinute(now);
      if err != Pass {
        return;
      }
      err := quota.CheckMonthly(now);
    }

    /** Accept: hand exactly this input's unique ID to the store. */
    method Accept(store: MemoryStore) returns (err: Outcome<StoreError>)
      modifies store
      ensures (err, store.kv) == Insert(old(store.kv), uniqueId)
    {
      err := store.Accept(uniqueId);
    }
  }

  /** NewInput keeps both fields as given. */
  function NewInput(uniqueId: int, userId: int): (input: Input)
    ensures input.uniqueId == uniqueId && input.userId == userId
  {
    Input(uniqueId, userId)
  }

  /** The limiters of every quota in a table. */
  function LimitersOf(quotas: map<int, Quota>): set<RateLimiter>
  {
    (set k | k in quotas :: quotas[k].monthlyLimiter) + (set k | k in quotas :: quotas[k].minuteLimiter)
  }
}
