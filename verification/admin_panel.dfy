/** The admin panel: its overview figures, colour coding, the
    recommendation list and the form that creates a recommendation. */
module AdminPanel {
  import opened Wrappers
  import opened Folds
  import opened Rider
  import Fleet
  import Time

  /** The three figures at the top of the panel. */
  datatype Overview = Overview(totalEarnings: int, avgSatisfaction: real, activeRiders: nat)

  /** The panel's own aggregates over the riders it is given: total weekly
      earnings, mean satisfaction (0 with no riders) and the riders last
      active strictly after the same time three days earlier. */
  function PanelOverview(riders: seq<Fleet.RiderSummary>, now: int): (o: Overview)
    ensures o.activeRiders <= |riders|
    ensures o.activeRiders == Fleet.ActiveRiders(riders, now)
    ensures o.totalEarnings == Sum(riders, Fleet.CurrentEarningsOf)
    ensures IsMean(o.avgSatisfaction, |riders|, SumR(riders, Fleet.SatisfactionOf))
    ensures riders == [] ==> o == Overview(0, 0.0, 0)
  {
    var total := Sum(riders, Fleet.CurrentEarningsOf);
    var avg := if |riders| > 0 then SumR(riders, Fleet.SatisfactionOf) / |riders| as real else 0.0;
    var active := Filter(riders, Fleet.ActiveAfter(Time.ThreeDaysBefore(now)));
    Overview(total, avg, |active|)
  }

  /** The panel recomputes what `getRiderStats` computes: both give the same
      earnings, satisfaction and active count. */
  lemma PanelOverviewAgreesWithRiderStats(riders: seq<Fleet.RiderSummary>, now: int)
    ensures PanelOverview(riders, now).totalEarnings == Fleet.RiderStats(riders, now).totalEarnings
    ensures PanelOverview(riders, now).avgSatisfaction == Fleet.RiderStats(riders, now).avgSatisfaction
    ensures PanelOverview(riders, now).activeRiders == Fleet.RiderStats(riders, now).activeRiders
  {
  }

  /** The text colour of a rider's progress towards the weekly goal. */
  datatype Tone = EarningsTone | WarningTone | DestructiveTone

  function ToneRank(t: Tone): nat
  {
    match t
    case DestructiveTone => 0
    case WarningTone => 1
    case EarningsTone => 2
  }

  /** `getProgressColor`: `(current / goal) * 100` against 80 and 50. With a
      zero goal the quotient is `Infinity` for positive earnings (at least 80)
      and `NaN` or `-Infinity` otherwise (below everything). */
  function ProgressColor(current: int, goal: int): (t: Tone)
    ensures goal > 0 ==> (t == EarningsTone <==> 5 * current >= 4 * goal)
    ensures goal > 0 ==> (t == DestructiveTone <==> 2 * current < goal)
    ensures goal == 0 ==> (t == EarningsTone <==> current > 0)
    ensures goal == 0 ==> t != WarningTone
  {
    if goal == 0 then
      (if current > 0 then EarningsTone else DestructiveTone)
    else
      var percentage := (current as real / goal as real) * 100.0;
      Thresholds(current, goal);
      if percentage >= 80.0 then EarningsTone
      else if percentage >= 50.0 then WarningTone
      else DestructiveTone
  }

  lemma Thresholds(current: int, goal: int)
    requires goal != 0
    ensures goal > 0 ==> ((current as real / goal as real) * 100.0 >= 80.0 <==> 5 * current >= 4 * goal)
    ensures goal > 0 ==> ((current as real / goal as real) * 100.0 >= 50.0 <==> 2 * current >= goal)
  {
    if goal > 0 {
      RatioAtLeast(current as real, goal as real, 80.0);
      RatioAtLeast(current as real, goal as real, 50.0);
    }
  }

  /** A percentage compared with a threshold, without the division. */
  lemma RatioAtLeast(c: real, g: real, t: real)
    requires g > 0.0
    ensures (c / g) * 100.0 >= t <==> c * 100.0 >= t * g
  {
    var q := c / g;
    assert q * g == c;
    assert (q * 100.0) * g == c * 100.0;
    if q * 100.0 >= t {
      assert (q * 100.0) * g >= t * g;
    } else {
      assert (q * 100.0) * g < t * g;
    }
  }

  /** More earnings towards the same positive goal never lower the colour. */
  lemma ProgressColorMonotone(c1: int, c2: int, goal: int)
    requires goal > 0 && c1 <= c2
    ensures ToneRank(ProgressColor(c1, goal)) <= ToneRank(ProgressColor(c2, goal))
  {
  }

  /** The admin panel's `getUrgencyColor`: each level its own badge. */
  function UrgencyColor(urgency: string): (b: Badge)
    ensures b == Destructive <==> urgency == "high"
    ensures b == Secondary <==> urgency == "medium"
    ensures b == Outline <==> urgency != "high" && urgency != "medium"
  {
    if urgency == "high" then Destructive
    else if urgency == "medium" then Secondary
    else Outline
  }

  /** `recommendations.slice(-10).reverse()`: the ten latest, newest first. */
  function RecentRecommendations(recs: seq<Recommendation>): (r: seq<Recommendation>)
    ensures |r| == Min(10, |recs|)
    ensures forall i :: 0 <= i < |r| ==> r[i] == recs[|recs| - 1 - i]
  {
    NewestFirst(recs, 10)
  }

  /** The new-recommendation form of the panel. */
  class RecommendationForm {
    var riderId: string
    var message: string
    var urgency: Urgency

    constructor ()
      ensures riderId == "" && message == "" && urgency == Medium
    {
      riderId, message, urgency := "", "", Medium;
    }

    predicate Complete()
      reads this
    {
      riderId != "" && message != ""
    }

    /** `handleCreateRecommendation`: an incomplete form is refused and left
        as it is; a complete one is handed on and the form is reset. */
    method Submit() returns (sent: Option<RecommendationDraft>)
      modifies this
      ensures sent.Some? <==> old(Complete())
      ensures sent.Some? ==> sent.value == RecommendationDraft(old(riderId), old(message), old(urgency))
      ensures sent.Some? ==> riderId == "" && message == "" && urgency == Medium
      ensures sent.None? ==> riderId == old(riderId) && message == old(message) && urgency == old(urgency)
    {
      if riderId == "" || message == "" {
        return None;
      }
      sent := Some(RecommendationDraft(riderId, message, urgency));
      riderId, message, urgency := "", "", Medium;
    }
  }

}
