/** The operator's view of the whole fleet (the `useAdminData` hook): one
    summary per rider profile, then totals over all riders. */
module Fleet {
  import opened Wrappers
  import opened Folds
  import opened Activities
  import Time

  /** A `rider_profiles` row; `createdAt` is the instant of `created_at`. */
  datatype Profile = Profile(
    id: string,
    name: string,
    phone: string,
    age: int,
    weeklyGoal: int,
    hoursPerDay: real,
    createdAt: int)

  /** The per-rider figures the operator's screen shows. */
  datatype RiderSummary = RiderSummary(
    id: string,
    name: string,
    phone: string,
    weeklyGoal: int,
    currentEarnings: int,
    avgDailyHours: real,
    lastActive: int,
    satisfactionRating: real)

  /** A profile extended with its statistics and its own activity rows. */
  datatype RiderWithStats = RiderWithStats(
    profile: Profile,
    currentEarnings: int,
    avgDailyHours: real,
    lastActive: int,
    satisfactionRating: real,
    dailyActivities: seq<Activity>)
  {
    function Summary(): RiderSummary
    {
      RiderSummary(profile.id, profile.name, profile.phone, profile.weeklyGoal,
        currentEarnings, avgDailyHours, lastActive, satisfactionRating)
    }
  }

  /** `activity => activity.rider_profile_id === profile.id` */
  function BelongsTo(id: string): Activity -> bool
  {
    (a: Activity) => a.riderProfileId == id
  }

  /** The rows of all riders, listed newest first as the store returns them. */
  ghost predicate DateDescending(s: seq<Activity>)
  {
    forall i, j :: 0 <= i < j < |s| ==> s[j].activityDate <= s[i].activityDate
  }

  /** The statistics computed for one profile inside the `profiles.map`. */
  function WithStats(p: Profile, all: seq<Activity>, now: int): (r: RiderWithStats)
    ensures r.profile == p
    ensures forall a :: a in r.dailyActivities <==> a in all && a.riderProfileId == p.id
    ensures r.currentEarnings == GetWeeklyStats(r.dailyActivities, now).totalEarnings
    ensures r.avgDailyHours == MeanR(r.dailyActivities, HoursOf)
    ensures r.satisfactionRating == Mean(r.dailyActivities, RatingOf)
    ensures r.dailyActivities == [] ==>
      r.avgDailyHours == 0.0 && r.satisfactionRating == 0.0 && r.lastActive == Time.Midnight(p.createdAt)
    ensures r.dailyActivities != [] ==> r.lastActive == r.dailyActivities[0].activityDate
  {
    var own := Filter(all, BelongsTo(p.id));
    RiderWithStats(
      p,
      Sum(ThisWeek(own, now), EarningsOf),
      MeanR(own, HoursOf),
      if own != [] then own[0].activityDate else Time.Midnight(p.createdAt),
      Mean(own, RatingOf),
      own)
  }

  /** `profiles.map(...)`: one rider per profile, in profile order. */
  function ProcessRiders(profiles: seq<Profile>, all: seq<Activity>, now: int): (r: seq<RiderWithStats>)
    ensures |r| == |profiles|
    ensures forall i :: 0 <= i < |r| ==> r[i] == WithStats(profiles[i], all, now)
    ensures forall i :: 0 <= i < |r| ==> r[i].profile == profiles[i]
    ensures forall i, a :: 0 <= i < |r| ==> (a in r[i].dailyActivities <==> a in all && a.riderProfileId == profiles[i].id)
  {
    seq(|profiles|, i requires 0 <= i < |profiles| => WithStats(profiles[i], all, now))
  }

  lemma {:induction false} FilterKeepsDescending(s: seq<Activity>, p: Activity -> bool)
    requires DateDescending(s)
    ensures DateDescending(Filter(s, p))
  {
    if s != [] {
      assert DateDescending(s[1..]) by {
        forall i, j | 0 <= i < j < |s[1..]| ensures s[1..][j].activityDate <= s[1..][i].activityDate {
          assert s[1..][j] == s[j + 1] && s[1..][i] == s[i + 1];
        }
      }
      FilterKeepsDescending(s[1..], p);
      var rest := Filter(s[1..], p);
      if p(s[0]) {
        var r := [s[0]] + rest;
        forall i, j | 0 <= i < j < |r| ensures r[j].activityDate <= r[i].activityDate {
          if i == 0 {
            assert r[j] in s[1..];
            var k :| 0 <= k < |s[1..]| && s[1..][k] == r[j];
            assert s[k + 1] == r[j];
          } else {
            assert r[j] == rest[j - 1] && r[i] == rest[i - 1];
          }
        }
      }
    }
  }

  /** When the rows come newest first, `lastActive` (the first own row's
      date) is the latest date among the rider's rows. */
  lemma LastActiveIsLatest(p: Profile, all: seq<Activity>, now: int, a: Activity)
    requires DateDescending(all)
    requires a in all && a.riderProfileId == p.id
    ensures a.activityDate <= WithStats(p, all, now).lastActive
  {
    var own := Filter(all, BelongsTo(p.id));
    FilterKeepsDescending(all, BelongsTo(p.id));
    var k :| 0 <= k < |own| && own[k] == a;
  }

  /** A row dated before the start of the week changes the rider's
      lifetime figures but never `currentEarnings`. */
  lemma OlderRowDoesNotCount(p: Profile, before: seq<Activity>, x: Activity, after: seq<Activity>, now: int)
    requires x.activityDate < Time.WeekStart(now)
    ensures WithStats(p, before + [x] + after, now).currentEarnings == WithStats(p, before + after, now).currentEarnings
  {
    var mine := BelongsTo(p.id);
    if mine(x) {
      FilterKeep(before, x, after, mine);
      FilterAppend(before, after, mine);
      FilterSkip(Filter(before, mine), x, Filter(after, mine), OnOrAfter(Time.WeekStart(now)));
    } else {
      FilterSkip(before, x, after, mine);
    }
  }

  /** The rollup `getRiderStats` returns. */
  datatype FleetStats = FleetStats(totalRiders: nat, activeRiders: nat, totalEarnings: int, avgSatisfaction: real)

  function CurrentEarningsOf(r: RiderSummary): int { r.currentEarnings }
  function SatisfactionOf(r: RiderSummary): real { r.satisfactionRating }

  /** `new Date(rider.lastActive) > threeDaysAgo`, strictly. */
  function ActiveAfter(cutoff: int): RiderSummary -> bool
  {
    (r: RiderSummary) => r.lastActive > cutoff
  }

  /** The number of riders last active within the three days before `now`. */
  function ActiveRiders(riders: seq<RiderSummary>, now: int): (n: nat)
    ensures n <= |riders|
    ensures riders == [] ==> n == 0
  {
    |Filter(riders, ActiveAfter(Time.ThreeDaysBefore(now)))|
  }

  /** One more rider adds one to the count exactly when that rider was last
      active strictly after the moment three days before `now`. */
  lemma ActiveRidersSnoc(riders: seq<RiderSummary>, r: RiderSummary, now: int)
    ensures ActiveRiders(riders + [r], now) ==
      ActiveRiders(riders, now) + (if r.lastActive > now - 3 * Time.DayMs then 1 else 0)
  {
    FilterAppend(riders, [r], ActiveAfter(Time.ThreeDaysBefore(now)));
    assert [r][1..] == [];
  }

  /** The comparison is strict: a rider last active exactly three days
      before `now` is no longer active. */
  lemma ActiveBoundary(r: RiderSummary, now: int)
    ensures r.lastActive == now - 3 * Time.DayMs ==> ActiveRiders([r], now) == 0
    ensures r.lastActive == now - 3 * Time.DayMs + 1 ==> ActiveRiders([r], now) == 1
  {
    assert [r][1..] == [];
  }

  /** `getRiderStats` at time `now`. */
  function RiderStats(riders: seq<RiderSummary>, now: int): (r: FleetStats)
    ensures r.totalRiders == |riders| && r.activeRiders <= r.totalRiders
    ensures r.activeRiders == ActiveRiders(riders, now)
    ensures r.totalEarnings == Sum(riders, CurrentEarningsOf)
    ensures IsMean(r.avgSatisfaction, |riders|, SumR(riders, SatisfactionOf))
    ensures riders == [] ==> r == FleetStats(0, 0, 0, 0.0)
  {
    FleetStats(|riders|, ActiveRiders(riders, now), Sum(riders, CurrentEarningsOf), MeanR(riders, SatisfactionOf))
  }

  /** As time passes with no new activity, riders only drop out of the
      active count. */
  lemma {:induction false} ActiveRidersNonIncreasing(riders: seq<RiderSummary>, earlier: int, later: int)
    requires earlier <= later
    ensures ActiveRiders(riders, later) <= ActiveRiders(riders, earlier)
  {
    if riders != [] {
      ActiveRidersNonIncreasing(riders[1..], earlier, later);
    }
  }

  /** The window is measured in wall-clock time: last active 71 hours ago
      counts, 73 hours ago does not. */
  lemma ActiveWindowInHours(r: RiderSummary, now: int)
    ensures r.lastActive == now - 71 * 3600 * 1000 ==> ActiveRiders([r], now) == 1
    ensures r.lastActive == now - 73 * 3600 * 1000 ==> ActiveRiders([r], now) == 0
  {
  }

  /** The summaries of a list of riders, in order. */
  function Summaries(riders: seq<RiderWithStats>): (r: seq<RiderSummary>)
    ensures |r| == |riders|
    ensures forall i :: 0 <= i < |r| ==>
      r[i].id == riders[i].profile.id && r[i].currentEarnings == riders[i].currentEarnings &&
      r[i].lastActive == riders[i].lastActive && r[i].satisfactionRating == riders[i].satisfactionRating
  {
    seq(|riders|, i requires 0 <= i < |riders| => riders[i].Summary())
  }

  /** The hook's state. */
  class AdminData {
    var riders: seq<RiderWithStats>
    var loading: bool
    var error: Option<string>

    constructor ()
      ensures riders == [] && loading && error == None
    {
      riders := [];
      loading := true;
      error := None;
    }

    /** `fetchRiders` given the store's answers to the profile query and the
        activity query (the latter is consulted only when there are profiles). */
    method FetchRiders(profiles: Result<seq<Profile>>, activities: Result<seq<Activity>>, now: int)
      modifies this
      ensures !loading
      ensures profiles.Failure? ==> riders == old(riders) && error == Some(profiles.error)
      ensures profiles.Success? && profiles.value == [] ==> riders == [] && error == old(error)
      ensures profiles.Success? && profiles.value != [] && activities.Failure? ==>
        riders == old(riders) && error == Some(activities.error)
      ensures profiles.Success? && profiles.value != [] && activities.Success? ==>
        riders == ProcessRiders(profiles.value, activities.value, now) && error == old(error)
    {
      loading := true;
      if profiles.Failure? {
        error := Some(profiles.error);
      } else if profiles.value == [] {
        riders := [];
      } else if activities.Failure? {
        error := Some(activities.error);
      } else {
        riders := ProcessRiders(profiles.value, activities.value, now);
      }
      loading := false;
    }

    /** `getRiderStats` on the current riders. */
    function GetRiderStats(now: int): (r: FleetStats)
      reads this
      ensures r.totalRiders == |riders| && r.activeRiders <= |riders|
      ensures r.activeRiders == ActiveRiders(Summaries(riders), now)
      ensures r.totalEarnings == Sum(Summaries(riders), CurrentEarningsOf)
      ensures IsMean(r.avgSatisfaction, |riders|, SumR(Summaries(riders), SatisfactionOf))
      ensures riders == [] ==> r == FleetStats(0, 0, 0, 0.0)
    {
      RiderStats(Summaries(riders), now)
    }
  }
}
