/** Day arithmetic on millisecond timestamps: `Math.ceil(diffMs / 86400000)`
    as the views compute it. The JavaScript division is in floating point;
    here it is exact, which agrees with the double result for every
    difference below about 10^8 days. */
module Clock {

  /** 1000 * 60 * 60 * 24 */
  const DayMs: int := 86400000

  /** `Math.ceil(a / d)` for a positive divisor. Dafny's `/` rounds down for a
      positive divisor, so the ceiling is the negated floor of `-a / d`. */
  function CeilDiv(a: int, d: int): (r: int)
    requires d > 0
  {
    -((-a) / d)
  }

  /** The ceiling of `diff / DayMs` is at most `k` exactly when `diff` is at
      most `k` whole days. */
  lemma DaysAtMost(diff: int, k: int)
    ensures CeilDiv(diff, DayMs) <= k <==> diff <= k * DayMs
  {
  }

  /** ... and at least `k` exactly when `diff` is more than `k - 1` whole days. */
  lemma DaysAtLeast(diff: int, k: int)
    ensures CeilDiv(diff, DayMs) >= k <==> diff > (k - 1) * DayMs
  {
  }

  /** `Math.ceil((end - now) / day)`: whole days until `end`, rounded up, so a
      moment less than a day in the past gives 0, not -1. */
  function DaysUntil(end: int, now: int): (days: int)
    ensures days <= 0 <==> end <= now
    ensures days < 0 <==> end <= now - DayMs
    ensures days <= 60 <==> end <= now + 60 * DayMs
    ensures days <= 30 <==> end <= now + 30 * DayMs
  {
    DaysAtMost(end - now, 0);
    DaysAtMost(end - now, -1);
    DaysAtMost(end - now, 60);
    DaysAtMost(end - now, 30);
    CeilDiv(end - now, DayMs)
  }

  /** `Math.ceil(Math.max(0, end - now) / day)`: days left in a trial. */
  function DaysLeft(end: int, now: int): (days: int)
    ensures days >= 0
    ensures days == 0 <==> end <= now
    ensures end > now ==> days == DaysUntil(end, now)
  {
    var diff := if end - now > 0 then end - now else 0;
    DaysAtMost(diff, 0);
    DaysAtLeast(diff, 0);
    CeilDiv(diff, DayMs)
  }
}
