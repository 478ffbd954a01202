/** One rider's daily activity rows and the weekly statistics derived from
    them (the `useDailyActivities` hook). */
module Activities {
  import opened Wrappers
  import opened Folds
  import Time

  /** A `daily_activities` row. `activityDate` is the instant its
      `activity_date` string denotes. */
  datatype Activity = Activity(
    id: string,
    riderProfileId: string,
    activityDate: int,
    earnings: int,
    hoursWorked: real,
    primaryPlatform: string,
    satisfactionRating: int)

  function EarningsOf(a: Activity): int { a.earnings }
  function HoursOf(a: Activity): real { a.hoursWorked }
  function RatingOf(a: Activity): int { a.satisfactionRating }

  /** `activity => new Date(activity.activity_date) >= weekStart` */
  function OnOrAfter(weekStart: int): Activity -> bool
  {
    (a: Activity) => a.activityDate >= weekStart
  }

  /** The statistics `getWeeklyStats` returns. */
  datatype WeeklyStats = WeeklyStats(
    totalEarnings: int,
    totalHours: real,
    avgRating: real,
    daysWorked: nat,
    activities: seq<Activity>)

  /** The rows of the current week: those dated on or after the start of
      the week containing `now`, in the order they were given. */
  function ThisWeek(activities: seq<Activity>, now: int): (r: seq<Activity>)
    ensures forall a :: a in r <==> a in activities && a.activityDate >= Time.WeekStart(now)
    ensures |r| <= |activities|
  {
    Filter(activities, OnOrAfter(Time.WeekStart(now)))
  }

  /** `getWeeklyStats` evaluated at time `now`. */
  function GetWeeklyStats(activities: seq<Activity>, now: int): (r: WeeklyStats)
    ensures r.activities == ThisWeek(activities, now)
    ensures r.daysWorked == |r.activities| <= |activities|
    ensures r.totalEarnings == Sum(r.activities, EarningsOf)
    ensures r.totalHours == SumR(r.activities, HoursOf)
    ensures IsMean(r.avgRating, r.daysWorked, Sum(r.activities, RatingOf) as real)
    ensures r.daysWorked == 0 ==> r.totalEarnings == 0 && r.totalHours == 0.0 && r.avgRating == 0.0
  {
    var week := ThisWeek(activities, now);
    WeeklyStats(Sum(week, EarningsOf), SumR(week, HoursOf), Mean(week, RatingOf), |week|, week)
  }

  /** Rows are split at the week boundary: when the list is this week's rows
      followed by older ones, the weekly figures are those of the first part
      alone (a row at 23:59 on the Saturday before does not count). */
  lemma WeeklyStatsIgnoreOlderRows(recent: seq<Activity>, older: seq<Activity>, now: int)
    requires forall a :: a in recent ==> a.activityDate >= Time.WeekStart(now)
    requires forall a :: a in older ==> a.activityDate < Time.WeekStart(now)
    ensures GetWeeklyStats(recent + older, now).activities == recent
    ensures GetWeeklyStats(recent + older, now).totalEarnings == Sum(recent, EarningsOf)
    ensures GetWeeklyStats(recent + older, now).daysWorked == |recent|
  {
    var p := OnOrAfter(Time.WeekStart(now));
    FilterAppend(recent, older, p);
    FilterAll(recent, p);
    FilterNone(older, p);
  }

  /** The Sunday-midnight boundary itself is inside the week; one minute
      before it is not. */
  lemma WeekBoundary(a: Activity, now: int)
    ensures a.activityDate == Time.WeekStart(now) ==> ThisWeek([a], now) == [a]
    ensures a.activityDate == Time.WeekStart(now) - 60 * 1000 ==> ThisWeek([a], now) == []
  {
  }

  /** With ratings in [1, 5] and at least one row this week, the mean
      weekly rating is within [1, 5] too. */
  lemma WeeklyRatingInRange(activities: seq<Activity>, now: int)
    requires forall a :: a in activities ==> 1 <= a.satisfactionRating <= 5
    requires GetWeeklyStats(activities, now).daysWorked > 0
    ensures 1.0 <= GetWeeklyStats(activities, now).avgRating <= 5.0
  {
    MeanBounds(ThisWeek(activities, now), RatingOf, 1, 5);
  }

  /** Two rows of this week worth 650 and 580, with 8 and 7.5 hours and
      ratings 4 and 3, give 1230 earned, 15.5 hours, a 3.5 mean rating
      and 2 days worked. */
  lemma WeeklyStatsExample(now: int)
    ensures var w := Time.WeekStart(now);
      var rows := [Activity("a", "r", w, 650, 8.0, "Zomato", 4), Activity("b", "r", w, 580, 7.5, "Swiggy", 3)];
      GetWeeklyStats(rows, now) == WeeklyStats(1230, 15.5, 3.5, 2, rows)
  {
    var w := Time.WeekStart(now);
    var rows := [Activity("a", "r", w, 650, 8.0, "Zomato", 4), Activity("b", "r", w, 580, 7.5, "Swiggy", 3)];
    FilterAll(rows, OnOrAfter(w));
    assert rows[1..] == [rows[1]] && rows[1..][1..] == [];
    assert Sum(rows[1..], RatingOf) == 3 && Sum(rows[1..], EarningsOf) == 580 && SumR(rows[1..], HoursOf) == 7.5;
    assert Sum(rows, RatingOf) == 7 && Sum(rows, EarningsOf) == 1230 && SumR(rows, HoursOf) == 15.5;
  }

  /** What `addActivity` sends to the store. */
  datatype Insert = Insert(
    riderProfileId: string,
    earnings: int,
    hoursWorked: real,
    primaryPlatform: string,
    satisfactionRating: int,
    activityDate: int)

  /** The caller's input to `addActivity`; `date` is optional. */
  datatype NewActivity = NewActivity(earnings: int, hours: real, primaryPlatform: string, rating: int, date: Option<int>)

  /** The insert built from the input: no range checks; a missing date
      becomes today's date (`new Date().toISOString().split('T')[0]`). */
  function InsertFor(riderProfileId: string, input: NewActivity, now: int): (ins: Insert)
    ensures ins.riderProfileId == riderProfileId && ins.earnings == input.earnings
    ensures ins.hoursWorked == input.hours && ins.satisfactionRating == input.rating
    ensures ins.primaryPlatform == input.primaryPlatform
    ensures ins.activityDate == (if input.date.Some? then input.date.value else Time.Midnight(now))
  {
    Insert(riderProfileId, input.earnings, input.hours, input.primaryPlatform, input.rating,
      if input.date.Some? then input.date.value else Time.Midnight(now))
  }

  /** The hook's state for one rider profile id (`""` when there is none). */
  class ActivityLog {
    const riderProfileId: string
    var activities: seq<Activity>
    var loading: bool
    var error: Option<string>

    constructor (riderProfileId: string)
      ensures this.riderProfileId == riderProfileId
      ensures activities == [] && !loading && error == None
    {
      this.riderProfileId := riderProfileId;
      activities := [];
      loading := false;
      error := None;
    }

    /** `fetchActivities` with the store's answer `response`: without a
        rider id nothing happens; otherwise the rows replace the list, or
        the error message is recorded and the list kept. */
    method FetchActivities(response: Result<seq<Activity>>)
      modifies this
      ensures riderProfileId == "" ==> activities == old(activities) && loading == old(loading) && error == old(error)
      ensures riderProfileId != "" && response.Success? ==> activities == response.value && error == old(error) && !loading
      ensures riderProfileId != "" && response.Failure? ==> activities == old(activities) && error == Some(response.error) && !loading
    {
      if riderProfileId == "" {
        return;
      }
      loading := true;
      match response {
        case Success(rows) =>
          activities := rows;
        case Failure(message) =>
          error := Some(message);
      }
      loading := false;
    }

    /** `addActivity`: without a rider id it fails and nothing changes;
        otherwise the insert goes to `store` and a returned row is put in
        front of the list, which is otherwise unchanged. */
    method AddActivity(input: NewActivity, now: int, store: Insert -> Result<Activity>) returns (r: Result<Activity>)
      modifies this`activities
      ensures riderProfileId == "" ==> r == Failure("No rider profile ID")
      ensures riderProfileId != "" ==> r == store(InsertFor(riderProfileId, input, now))
      ensures r.Success? ==> activities == [r.value] + old(activities)
      ensures r.Failure? ==> activities == old(activities)
    {
      if riderProfileId == "" {
        return Failure("No rider profile ID");
      }
      r := store(InsertFor(riderProfileId, input, now));
      if r.Success? {
        activities := [r.value] + activities;
      }
    }

    /** `getWeeklyStats` on the current list. */
    function WeeklyStatsNow(now: int): (r: WeeklyStats)
      reads this
      ensures r == GetWeeklyStats(activities, now)
      ensures r.daysWorked <= |activities|
      ensures forall a :: a in r.activities <==> a in activities && a.activityDate >= Time.WeekStart(now)
    {
      GetWeeklyStats(activities, now)
    }
  }

  /** A row added this week raises the weekly total by its earnings and the
      day count by one. */
  lemma AddedRowCountsThisWeek(a: Activity, activities: seq<Activity>, now: int)
    requires a.activityDate >= Time.WeekStart(now)
    ensures GetWeeklyStats([a] + activities, now).totalEarnings == a.earnings + GetWeeklyStats(activities, now).totalEarnings
    ensures GetWeeklyStats([a] + activities, now).daysWorked == 1 + GetWeeklyStats(activities, now).daysWorked
  {
    FilterAppend([a], activities, OnOrAfter(Time.WeekStart(now)));
    SumAppend([a], ThisWeek(activities, now), EarningsOf);
  }
}
