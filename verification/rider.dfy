/** The rider record the single-page app keeps in memory, shared by the
    dashboard, the daily-entry form and the operator's panel. */
module Rider {

  /** One day's entry as the app stores it after parsing the form. */
  datatype DayEntry = DayEntry(date: string, earnings: int, hours: real, platform: string, rating: int)

  datatype Urgency = Low | Medium | High

  /** The label `'low' | 'medium' | 'high'` an urgency is written as. */
  function UrgencyLabel(u: Urgency): string
  {
    match u
    case Low => "low"
    case Medium => "medium"
    case High => "high"
  }

  datatype Recommendation = Recommendation(
    id: string,
    riderId: string,
    message: string,
    urgency: Urgency,
    delivered: bool,
    followed: bool,
    createdAt: string)

  /** What the operator's form hands to `onCreateRecommendation`. */
  datatype RecommendationDraft = RecommendationDraft(riderId: string, message: string, urgency: Urgency)

  /** The badge variants the urgency labels are drawn with. */
  datatype Badge = Destructive | Secondary | Outline

  datatype RiderData = RiderData(
    name: string,
    age: string,
    phone: string,
    weeklyGoal: int,
    hoursPerDay: string,
    area: string,
    platforms: seq<string>,
    currentEarnings: int,
    dailyData: seq<DayEntry>,
    recommendations: seq<Recommendation>)

  function EntryEarnings(e: DayEntry): int { e.earnings }
  function EntryRating(e: DayEntry): int { e.rating }
}
