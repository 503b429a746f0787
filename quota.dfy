/** The per-user monthly video quota (models.py): the tier's quota, the
    monthly reset of the usage counter and the counter's increment. The
    database session and the other columns are outside the model. */
module UserQuota {

  /** A UTC date and time; the quota only compares year and month. */
  datatype DateTime = DateTime(year: int, month: int, day: int, secondOfDay: int)

  const FreeQuota := 5
  const StarterQuota := 25
  const ProQuota := 100

  /** `get_quota_limit`: free 5, starter 25, pro 100, anything else 5. */
  function QuotaFor(tier: string): (q: int)
    ensures q == FreeQuota || q == StarterQuota || q == ProQuota
    ensures q == StarterQuota <==> tier == "starter"
    ensures q == ProQuota <==> tier == "pro"
    ensures q == FreeQuota <==> tier != "starter" && tier != "pro"
  {
    if tier == "free" then FreeQuota
    else if tier == "starter" then StarterQuota
    else if tier == "pro" then ProQuota
    else FreeQuota
  }

  predicate SameMonth(a: DateTime, b: DateTime) {
    a.year == b.year && a.month == b.month
  }

  class User {
    var videosUsedThisMonth: int
    var lastResetDate: DateTime
    var subscriptionTier: string

    /** A new account: nothing used, the reset date its creation time, and
        the free tier. */
    constructor (createdAt: DateTime)
      ensures videosUsedThisMonth == 0 && lastResetDate == createdAt && subscriptionTier == "free"
    {
      videosUsedThisMonth := 0;
      lastResetDate := createdAt;
      subscriptionTier := "free";
    }

    function QuotaLimit(): int
      reads this
    {
      QuotaFor(subscriptionTier)
    }

    /** `can_generate_video` at time `now`: in a new calendar month the
        counter restarts at 0 and the reset date becomes `now`; within the
        same month nothing changes. The answer is whether the counter is
        below the quota. */
    method CanGenerateVideo(now: DateTime) returns (ok: bool)
      modifies this
      ensures SameMonth(now, old(lastResetDate)) ==>
        videosUsedThisMonth == old(videosUsedThisMonth) && lastResetDate == old(lastResetDate)
      ensures !SameMonth(now, old(lastResetDate)) ==> videosUsedThisMonth == 0 && lastResetDate == now
      ensures subscriptionTier == old(subscriptionTier)
      ensures SameMonth(now, lastResetDate)
      ensures ok <==> videosUsedThisMonth < QuotaFor(subscriptionTier)
      ensures !SameMonth(now, old(lastResetDate)) ==> ok
    {
      if (now.year, now.month) != (lastResetDate.year, lastResetDate.month) {
        videosUsedThisMonth := 0;
        lastResetDate := now;
      }
      ok := videosUsedThisMonth < QuotaLimit();
    }

    /** `increment_usage`: the counter goes up by exactly one. */
    method IncrementUsage()
      modifies this
      ensures videosUsedThisMonth == old(videosUsedThisMonth) + 1
      ensures lastResetDate == old(lastResetDate) && subscriptionTier == old(subscriptionTier)
    {
      videosUsedThisMonth := videosUsedThisMonth + 1;
    }
  }

  /** The counter after a check at `now` and, when the check allows it, an
      increment. */
  function AfterRequest(used: int, last: DateTime, now: DateTime, tier: string): (r: (int, DateTime))
  {
    var u := if SameMonth(now, last) then used else 0;
    (if u < QuotaFor(tier) then u + 1 else u, if SameMonth(now, last) then last else now)
  }

  /** Requests at the given times, in order, each checked and counted when
      allowed. */
  function Replay(used: int, last: DateTime, times: seq<DateTime>, tier: string): (int, DateTime)
    decreases |times|
  {
    if times == [] then (used, last)
    else
      var next := AfterRequest(used, last, times[0], tier);
      Replay(next.0, next.1, times[1..], tier)
  }

  /** Checking before every generation keeps a month's count within the
      quota: however many requests arrive within one month, the counter
      ends at most at the quota (or where it started, if above). */
  lemma {:induction false} ReplayWithinQuota(used: int, last: DateTime, times: seq<DateTime>, tier: string)
    requires forall k :: 0 <= k < |times| ==> SameMonth(times[k], last)
    ensures Replay(used, last, times, tier).0 <= (if used > QuotaFor(tier) then used else QuotaFor(tier))
    ensures Replay(used, last, times, tier).1 == last
    decreases |times|
  {
    if times != [] {
      var next := AfterRequest(used, last, times[0], tier);
      assert next.1 == last;
      assert next.0 <= (if used > QuotaFor(tier) then used else QuotaFor(tier));
      ReplayWithinQuota(next.0, next.1, times[1..], tier);
    }
  }
}
