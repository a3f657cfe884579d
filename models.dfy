/**
 * The methods of the relational `Tenant` record (models.py) that read or update its fields.
 * Instants are integer seconds and dates are integer day numbers; the current instant or day
 * is a parameter where the source reads the UTC clock.
 */
module Models {

  const SecondsPerDay: int := 86400

  /** What `get_status` reports. */
  datatype Status = Suspended | Downgraded | Active {
    /** The text shown for the status. */
    function Label(): string {
      match this
      case Suspended => "🔴 停權"
      case Downgraded => "🟡 已降級"
      case Active => "🟢 啟用中"
    }
  }

  /** The group list after each group of `offered` is put to a caller that appends it only
    * when `can_add_group()` holds for the list so far (fewer groups than `maxGroups`). */
  function Admitted(groups: seq<string>, maxGroups: int, offered: seq<string>): seq<string>
    decreases |offered|
  {
    if offered == [] then groups
    else Admitted(if |groups| < maxGroups then groups + [offered[0]] else groups, maxGroups, offered[1..])
  }

  /** Adding groups only while `can_add_group()` allows it never takes a tenant within its
    * quota past it: the offered groups are taken in order until the quota is full, and the
    * rest are turned away. */
  lemma {:induction false} AdmittedWithinQuota(groups: seq<string>, maxGroups: int, offered: seq<string>)
    requires |groups| <= maxGroups
    ensures var r := Admitted(groups, maxGroups, offered);
      && |r| == (if |groups| + |offered| <= maxGroups then |groups| + |offered| else maxGroups)
      && r == groups + offered[..|r| - |groups|]
    decreases |offered|
  {
    if offered != [] {
      var next := if |groups| < maxGroups then groups + [offered[0]] else groups;
      AdmittedWithinQuota(next, maxGroups, offered[1..]);
      var r := Admitted(next, maxGroups, offered[1..]);
      if |groups| < maxGroups {
        assert r == groups + ([offered[0]] + offered[1..][..|r| - |next|]);
        assert [offered[0]] + offered[1..][..|r| - |next|] == offered[..|r| - |groups|];
      } else {
        assert offered[1..][..0] == offered[..0];
      }
    }
  }

  class Tenant {
    var userId: string
    var expiresAt: int
    var isActive: bool
    var isSuspended: bool
    var plan: string
    var maxGroups: int
    var groups: seq<string>
    var todayCharCount: int
    var lastResetDate: int
    var reminded7days: bool

    /** A new row with the column defaults. */
    constructor (userId: string, expiresAt: int, today: int)
      ensures this.userId == userId && this.expiresAt == expiresAt
      ensures isActive && !isSuspended && plan == "premium" && maxGroups == 20
      ensures groups == [] && todayCharCount == 0 && lastResetDate == today && !reminded7days
    {
      this.userId := userId;
      this.expiresAt := expiresAt;
      isActive, isSuspended, plan, maxGroups := true, false, "premium", 20;
      groups, todayCharCount, lastResetDate, reminded7days := [], 0, today, false;
    }

    /** `is_expired()`: the expiry instant is strictly in the past. */
    function IsExpired(now: int): (r: bool)
      reads this
      ensures r <==> (expiresAt - now) / SecondsPerDay < 0
    {
      now > expiresAt
    }

    /** Once expired, a tenant stays expired as time passes, with no days left. */
    lemma ExpiredStaysExpired(now: int, later: int)
      requires now <= later && IsExpired(now)
      ensures IsExpired(later) && DaysRemaining(later) == 0
    {
    }

    /** `days_remaining()`: the whole days left, rounded down as `timedelta.days` does, and
      * never negative. */
    function DaysRemaining(now: int): (days: nat)
      reads this
      ensures expiresAt - now < 0 ==> days == 0
      ensures expiresAt - now >= 0 ==>
        days * SecondsPerDay <= expiresAt - now < (days + 1) * SecondsPerDay
      ensures IsExpired(now) ==> days == 0
    {
      var whole := (expiresAt - now) / SecondsPerDay;
      if whole < 0 then 0 else whole
    }

    /** Time passing never adds days. */
    lemma DaysRemainingNonIncreasing(now: int, later: int)
      requires now <= later
      ensures DaysRemaining(later) <= DaysRemaining(now)
    {
      var a, b := expiresAt - now, expiresAt - later;
      assert b <= a;
      if b >= 0 {
        var da, db := a / SecondsPerDay, b / SecondsPerDay;
        assert db * SecondsPerDay <= b <= a < (da + 1) * SecondsPerDay;
        assert db < da + 1;
      }
    }

    /** `get_status()`: suspension wins over expiry; active only when neither holds. */
    function GetStatus(now: int): (s: Status)
      reads this
      ensures s == Suspended <==> isSuspended
      ensures s == Downgraded <==> !isSuspended && IsExpired(now)
      ensures s == Active <==> !isSuspended && !IsExpired(now)
    {
      if isSuspended then Suspended
      else if IsExpired(now) then Downgraded
      else Active
    }

    /** `can_add_group()`: fewer groups than the quota. When it answers False for a tenant
      * within its quota, the quota is exactly used up. */
    function CanAddGroup(): (r: bool)
      reads this
      ensures r ==> |groups| + 1 <= maxGroups
      ensures !r && |groups| <= maxGroups ==> |groups| == maxGroups
    {
      |groups| < maxGroups
    }

    /** A caller that checks `can_add_group()` before adding takes the offered group exactly
      * when the answer is True. */
    lemma CanAddGroupAdmits(g: string)
      ensures Admitted(groups, maxGroups, [g]) == if CanAddGroup() then groups + [g] else groups
    {
      assert [g][1..] == [];
    }

    /** `reset_daily_stats()`: on a new day the day's character count goes back to 0 and the
      * day is recorded, answering True; on the same day nothing changes and it answers False. */
    method ResetDailyStats(today: int) returns (reset: bool)
      modifies this`todayCharCount, this`lastResetDate
      ensures reset <==> old(lastResetDate) != today
      ensures lastResetDate == today
      ensures reset ==> todayCharCount == 0
      ensures !reset ==> todayCharCount == old(todayCharCount)
    {
      if lastResetDate != today {
        todayCharCount := 0;
        lastResetDate := today;
        return true;
      }
      return false;
    }

    /** `should_remind_7days()`: at most seven whole days left and no reminder sent yet. */
    function ShouldRemind7Days(now: int): (r: bool)
      reads this
      ensures r ==> !reminded7days
      ensures IsExpired(now) && !reminded7days ==> r
    {
      DaysRemaining(now) <= 7 && !reminded7days
    }

    /** The reminder is due exactly when less than eight full days remain, so it is due for
      * every instant at or after the expiry too (until `reminded7days` is set). */
    lemma ShouldRemind7DaysWhen(now: int)
      ensures ShouldRemind7Days(now) <==> !reminded7days && expiresAt - now < 8 * SecondsPerDay
    {
      var d := DaysRemaining(now);
      if expiresAt - now >= 0 {
        assert d * SecondsPerDay <= expiresAt - now < (d + 1) * SecondsPerDay;
      }
    }
  }

  /** Two resets on one day: the second changes nothing and answers False. */
  method ResetTwiceSameDay(t: Tenant, today: int) returns (first: bool, second: bool)
    modifies t`todayCharCount, t`lastResetDate
    ensures first <==> old(t.lastResetDate) != today
    ensures !second
    ensures t.lastResetDate == today
    ensures first ==> t.todayCharCount == 0
    ensures !first ==> t.todayCharCount == old(t.todayCharCount)
  {
    first := t.ResetDailyStats(today);
    second := t.ResetDailyStats(today);
  }
}
