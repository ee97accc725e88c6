/** The static user-to-quota table of utils.go, built once when the server starts. */
module Utils {
  import opened Logic

  /**
   * The table bootstrapUserQuotas builds: users 1 and 2 only, each quota
   * under its own user's ID, with its own fresh pair of limiters.
   */
  ghost predicate Bootstrapped(userQuotas: map<int, Quota>, now: int)
    reads LimitersOf(userQuotas)
  {
    userQuotas.Keys == {1, 2} &&
    userQuotas[1].userId == 1 && userQuotas[1].Provisioned(1000, 1, now) &&
    userQuotas[2].userId == 2 && userQuotas[2].Provisioned(2000, 20, now) &&
    userQuotas[1].Limiters() !! userQuotas[2].Limiters()
  }

  /** bootstrapUserQuotas: two successive insertions into an empty table. */
  method BootstrapUserQuotas(now: int) returns (userQuotas: map<int, Quota>)
    ensures Bootstrapped(userQuotas, now)
    ensures fresh(LimitersOf(userQuotas))
  {
    userQuotas := map[];
    var first := NewQuota(1, 1000, 1, now);
    userQuotas := userQuotas[1 := first];
    var second := NewQuota(2, 2000, 20, now);
    userQuotas := userQuotas[2 := second];
  }
}
