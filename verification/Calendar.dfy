/** Month buckets and day counts of millisecond timestamps. */
module Calendar {
  import opened Data
  import opened Numeric

  const MS_PER_DAY: int := 24 * 60 * 60 * 1000

  /** A number of days in milliseconds. */
  function Days(n: int): int {
    n * 86_400_000
  }

  function MonthOf(env: Env, tsMillis: int): int {
    env.monthOfSecond(TruncDiv(tsMillis, 1000))
  }

  function MonthKeyOf(env: Env, tsMillis: int): MonthKey {
    if tsMillis <= 0 then NoMonth else Month(MonthOf(env, tsMillis))
  }

  function DaysSince(fromMillis: int, toMillis: int): int {
    var diff := toMillis - fromMillis;
    var diff := if diff < 0 then -diff else diff;
    diff / 1000 / 60 / 60 / 24
  }

  /** The calendar never goes back. */
  ghost predicate MonotoneMonths(env: Env) {
    forall a, b :: a <= b ==> env.monthOfSecond(a) <= env.monthOfSecond(b)
  }

  /** The two ways the program counts days agree on ordered timestamps. */
  lemma DayCountsAgree(fromMillis: int, toMillis: int)
    requires fromMillis <= toMillis
    ensures DaysSince(fromMillis, toMillis) == TruncDiv(toMillis - fromMillis, MS_PER_DAY) >= 0
  {}

  /** Months are taken of whole seconds, cut toward zero; a timestamp that is not positive
      has the empty key. */
  lemma MonthOfMillis(env: Env, seconds: int, millis: int)
    requires seconds >= 0 && 0 <= millis < 1000
    ensures MonthOf(env, 1000 * seconds + millis) == env.monthOfSecond(seconds)
    ensures MonthOf(env, -(1000 * seconds + millis)) == env.monthOfSecond(-seconds)
    ensures var ts := 1000 * seconds + millis;
      && MonthKeyOf(env, -ts) == NoMonth
      && MonthKeyOf(env, ts) == if ts > 0 then Month(env.monthOfSecond(seconds)) else NoMonth
  {}

  /** Days are counted whole, whichever timestamp is the later. */
  lemma WholeDays(fromMillis: int, n: nat, rest: nat)
    requires rest < 24 * 60 * 60 * 1000
    ensures Days(n) == n * (24 * 60 * 60 * 1000)
    ensures DaysSince(fromMillis, fromMillis + Days(n) + rest) == n
    ensures DaysSince(fromMillis + Days(n) + rest, fromMillis) == n
    ensures TruncDiv(Days(n) + rest, MS_PER_DAY) == n
  {}
}
