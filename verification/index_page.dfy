/** The single page of the app: which screen is shown, and the in-memory
    rider record the screens read and update. */
module IndexPage {
  import opened Wrappers
  import opened Folds
  import opened Rider
  import Onboarding
  import DailyForm
  import Fleet
  import Dashboard

  datatype View = OnboardingView | DashboardView | DailyInputView | AdminView

  /** What the page renders. */
  datatype Screen =
    | OnboardingScreen
    | DailyFormScreen
    | AdminScreen(riders: seq<Fleet.RiderSummary>, recommendations: seq<Recommendation>)
    | DashboardScreen(data: RiderData)
    | LoadingScreen

  /** The record's running total agrees with its daily entries. */
  predicate Consistent(d: RiderData)
  {
    d.currentEarnings == Sum(d.dailyData, EntryEarnings)
  }

  /** The rider record a completed onboarding form starts: nothing earned
      yet, no entries, no recommendations. `weeklyGoal` is the form's goal
      after `parseInt`. */
  function NewRider(f: Onboarding.OnboardingData, weeklyGoal: int): (d: RiderData)
    ensures Consistent(d)
    ensures d.currentEarnings == 0 && d.dailyData == [] && d.recommendations == []
    ensures d.name == f.name && d.phone == f.phone && d.platforms == f.platforms && d.weeklyGoal == weeklyGoal
    ensures d.age == f.age && d.hoursPerDay == f.hoursPerDay && d.area == f.area
  {
    RiderData(f.name, f.age, f.phone, weeklyGoal, f.hoursPerDay, f.area, f.platforms, 0, [], [])
  }

  /** The day entry a submitted daily form becomes; `earnings` and `hours`
      are the form's text after `parseInt` and `parseFloat`. */
  function EntryFrom(f: DailyForm.DailyData, earnings: int, hours: real): DayEntry
  {
    DayEntry(f.date, earnings, hours, f.primaryPlatform, f.rating)
  }

  /** The record after a day entry: the entry appended, its earnings added. */
  function WithDay(d: RiderData, e: DayEntry): (r: RiderData)
    ensures r.dailyData == d.dailyData + [e]
    ensures r.currentEarnings - d.currentEarnings == e.earnings
    ensures r == d.(currentEarnings := r.currentEarnings, dailyData := r.dailyData)
    ensures Consistent(d) ==> Consistent(r)
  {
    SumAppend(d.dailyData, [e], EntryEarnings);
    assert [e][1..] == [];
    d.(currentEarnings := d.currentEarnings + e.earnings, dailyData := d.dailyData + [e])
  }

  /** The record after the operator sends a recommendation: it arrives
      already delivered and not yet followed. */
  function WithRecommendation(d: RiderData, draft: RecommendationDraft, id: string, createdAt: string): (r: RiderData)
    ensures r.recommendations == d.recommendations + [Recommendation(id, draft.riderId, draft.message, draft.urgency, true, false, createdAt)]
    ensures Dashboard.UnreadRecommendations(r.recommendations) == Dashboard.UnreadRecommendations(d.recommendations)
    ensures r.dailyData == d.dailyData && r.currentEarnings == d.currentEarnings
    ensures r == d.(recommendations := r.recommendations)
  {
    var rec := Recommendation(id, draft.riderId, draft.message, draft.urgency, true, false, createdAt);
    Dashboard.DeliveredAddsNoUnread(d.recommendations, rec);
    d.(recommendations := d.recommendations + [rec])
  }

  /** The demonstration record. */
  function Sample(): RiderData
  {
    RiderData(
      "Rajesh Kumar", "28", "+91 9876543210", 5000, "8", "HSR Layout Sector 2",
      ["Zomato", "Swiggy", "Blinkit"],
      3200,
      [ DayEntry("2024-01-08", 650, 8.0, "Zomato", 4),
        DayEntry("2024-01-09", 580, 7.5, "Swiggy", 3),
        DayEntry("2024-01-10", 720, 9.0, "Zomato", 5),
        DayEntry("2024-01-11", 620, 8.0, "Blinkit", 4),
        DayEntry("2024-01-12", 630, 7.0, "Swiggy", 4) ],
      [ Recommendation("1", "1",
          "High demand expected in Sector 3 during 7-9 PM today. Consider switching to that area for better earnings.",
          Medium, true, false, "2024-01-12T10:00:00Z"),
        Recommendation("2", "1",
          "Zomato is running a promotion today - you might see 15% more orders than usual.",
          Low, true, true, "2024-01-12T08:00:00Z") ])
  }

  /** The demonstration record's running total is the sum of its five days,
      and it has no unread recommendations. */
  lemma SampleConsistent()
    ensures Consistent(Sample())
    ensures Dashboard.UnreadRecommendations(Sample().recommendations) == 0
  {
    var days := Sample().dailyData;
    assert days[1..][1..][1..][1..][1..] == [];
    assert Sum(days[1..][1..][1..][1..], EntryEarnings) == 630;
    assert Sum(days[1..][1..][1..], EntryEarnings) == 1250;
    assert Sum(days[1..][1..], EntryEarnings) == 1970;
    assert Sum(days[1..], EntryEarnings) == 2550;
  }

  /** The single rider the operator's panel is given: the record under id
      "1", active now, with the hours from the profile text (`parseFloat`)
      and the mean of the daily ratings. */
  function AdminRiders(data: Option<RiderData>, now: int, hours: real): (r: seq<Fleet.RiderSummary>)
    ensures data.None? <==> r == []
    ensures data.Some? ==> |r| == 1 && r[0].currentEarnings == data.value.currentEarnings
    ensures data.Some? ==> r[0].satisfactionRating == Mean(data.value.dailyData, EntryRating)
    ensures data.Some? ==> Fleet.RiderStats(r, now).activeRiders == 1
    ensures data.Some? ==> Fleet.RiderStats(r, now).totalEarnings == data.value.currentEarnings
  {
    match data
    case None => []
    case Some(d) =>
      var r := [Fleet.RiderSummary("1", d.name, d.phone, d.weeklyGoal, d.currentEarnings, hours, now,
        Mean(d.dailyData, EntryRating))];
      assert r[1..] == [];
      assert Sum(r, Fleet.CurrentEarningsOf) == d.currentEarnings + Sum(r[1..], Fleet.CurrentEarningsOf);
      r
  }

  /** The page component. */
  class App {
    var currentView: View
    var riderData: Option<RiderData>

    constructor ()
      ensures currentView == OnboardingView && riderData == None
    {
      currentView, riderData := OnboardingView, None;
    }

    /** The record, when there is one, agrees with its entries. */
    predicate Valid()
      reads this
    {
      riderData.Some? ==> Consistent(riderData.value)
    }

    /** `handleOnboardingComplete`. */
    method OnboardingComplete(f: Onboarding.OnboardingData, weeklyGoal: int)
      modifies this
      ensures Valid()
      ensures riderData == Some(NewRider(f, weeklyGoal)) && currentView == DashboardView
    {
      riderData := Some(NewRider(f, weeklyGoal));
      currentView := DashboardView;
    }

    /** `handleDailyDataSubmit`: with a record, the entry is appended and its
        earnings added; without one nothing is recorded. Either way the
        dashboard is shown. */
    method DailyDataSubmit(f: DailyForm.DailyData, earnings: int, hours: real)
      requires Valid()
      modifies this
      ensures Valid()
      ensures currentView == DashboardView
      ensures riderData == if old(riderData).Some? then Some(WithDay(old(riderData).value, EntryFrom(f, earnings, hours))) else None
    {
      if riderData.Some? {
        riderData := Some(WithDay(riderData.value, EntryFrom(f, earnings, hours)));
      }
      currentView := DashboardView;
    }

    /** `handleCreateRecommendation`: appended to the record, if any; the
        view does not change. */
    method CreateRecommendation(draft: RecommendationDraft, id: string, createdAt: string)
      requires Valid()
      modifies this`riderData
      ensures Valid()
      ensures riderData == if old(riderData).Some? then Some(WithRecommendation(old(riderData).value, draft, id, createdAt)) else None
    {
      if riderData.Some? {
        riderData := Some(WithRecommendation(riderData.value, draft, id, createdAt));
      }
    }

    /** `enableDemo`. */
    method EnableDemo()
      modifies this
      ensures Valid()
      ensures riderData == Some(Sample()) && currentView == DashboardView
    {
      SampleConsistent();
      riderData := Some(Sample());
      currentView := DashboardView;
    }

    /** The dashboard's "add today's data" and the admin button, and the
        back buttons of the form and the panel. */
    method Navigate(to: View)
      requires to != OnboardingView
      modifies this`currentView
      ensures currentView == to
    {
      currentView := to;
    }

    /** The page's render: a view needing the record shows the loading
        screen while there is none; the onboarding and admin views do not
        need it. */
    function Render(now: int, hours: real): (s: Screen)
      reads this
      ensures s == LoadingScreen <==> riderData.None? && (currentView == DashboardView || currentView == DailyInputView)
      ensures s.DashboardScreen? ==> riderData == Some(s.data)
      ensures s.AdminScreen? ==> s.riders == AdminRiders(riderData, now, hours)
    {
      match currentView
      case OnboardingView => OnboardingScreen
      case DailyInputView => if riderData.Some? then DailyFormScreen else LoadingScreen
      case AdminView =>
        AdminScreen(AdminRiders(riderData, now, hours), if riderData.Some? then riderData.value.recommendations else [])
      case DashboardView => if riderData.Some? then DashboardScreen(riderData.value) else LoadingScreen
    }
  }
}
