/** The figures the rider's dashboard derives from the rider record. */
module Dashboard {
  import opened Wrappers
  import opened Folds
  import opened Rider

  /** `Math.min((current / goal) * 100, 100)`. With a zero goal and
      positive earnings the quotient is `Infinity`, so the bar is full; a
      zero goal with nothing earned (`NaN`) or a loss (`-Infinity`) has no
      real value and is not a valid argument. */
  function ProgressPercentage(current: int, goal: int): (p: real)
    requires goal != 0 || current > 0
    ensures p <= 100.0
    ensures goal > 0 ==> (p == 100.0 <==> current >= goal)
    ensures goal > 0 && current < goal ==> p * goal as real == current as real * 100.0
    ensures goal == 0 ==> p == 100.0
  {
    if goal == 0 then 100.0
    else
      var pct := (current as real / goal as real) * 100.0;
      if pct < 100.0 then pct else 100.0
  }

  /** `Math.max(goal - current, 0)`. */
  function RemainingAmount(current: int, goal: int): (r: int)
    ensures r >= 0
    ensures r == 0 <==> current >= goal
    ensures r > 0 ==> current + r == goal
  {
    if goal - current > 0 then goal - current else 0
  }

  /** The goal is reached exactly when nothing remains and the bar is full;
      with a zero goal any earnings fill it. */
  lemma GoalReached(current: int, goal: int)
    requires goal > 0 || (goal == 0 && current > 0)
    ensures RemainingAmount(current, goal) == 0 <==> ProgressPercentage(current, goal) == 100.0
  {
  }

  /** `dailyData.slice(-7)`: the last seven entries. */
  function ThisWeekData(daily: seq<DayEntry>): (r: seq<DayEntry>)
    ensures |r| == Min(7, |daily|)
    ensures forall i :: 0 <= i < |r| ==> r[i] == daily[|daily| - |r| + i]
  {
    TakeLast(daily, 7)
  }

  /** `dailyData[dailyData.length - 1]`: the last entry, if any. */
  function TodayData(daily: seq<DayEntry>): (r: Option<DayEntry>)
    ensures r.None? <==> daily == []
    ensures r.Some? ==> r.value == daily[|daily| - 1]
  {
    if daily == [] then None else Some(daily[|daily| - 1])
  }

  /** The mean earnings of the last seven entries, 0 with none. */
  function AverageDailyEarnings(daily: seq<DayEntry>): (avg: real)
    ensures daily == [] ==> avg == 0.0
    ensures IsMean(avg, |ThisWeekData(daily)|, Sum(ThisWeekData(daily), EntryEarnings) as real)
  {
    Mean(ThisWeekData(daily), EntryEarnings)
  }

  /** Recent activity: the last five of `thisWeekData`, newest first. */
  function RecentActivity(daily: seq<DayEntry>): (r: seq<DayEntry>)
    ensures |r| == Min(5, |daily|)
  {
    NewestFirst(ThisWeekData(daily), 5)
  }

  /** Recent activity lists the latest entries, the newest one first. */
  lemma RecentActivityNewestFirst(daily: seq<DayEntry>)
    ensures forall i :: 0 <= i < |RecentActivity(daily)| ==> RecentActivity(daily)[i] == daily[|daily| - 1 - i]
  {
    var week := ThisWeekData(daily);
    var r := NewestFirst(week, 5);
    assert |r| <= |week| <= |daily|;
    forall i | 0 <= i < |r| ensures r[i] == daily[|daily| - 1 - i] {
      WeekIndex(daily, |week| - 1 - i);
    }
  }

  lemma WeekIndex(daily: seq<DayEntry>, j: nat)
    requires j < |ThisWeekData(daily)|
    ensures ThisWeekData(daily)[j] == daily[|daily| - |ThisWeekData(daily)| + j]
  {
  }

  /** `recommendations.slice(-3)`: the three latest, oldest of them first. */
  function LatestRecommendations(recs: seq<Recommendation>): (r: seq<Recommendation>)
    ensures |r| == Min(3, |recs|)
    ensures forall i :: 0 <= i < |r| ==> r[i] == recs[|recs| - |r| + i]
  {
    TakeLast(recs, 3)
  }

  function IsUnread(r: Recommendation): bool { !r.delivered }

  /** `recommendations.filter(rec => !rec.delivered).length`. */
  function UnreadRecommendations(recs: seq<Recommendation>): (n: nat)
    ensures n <= |recs|
    ensures (forall r :: r in recs ==> r.delivered) ==> n == 0
  {
    var unread := Filter(recs, IsUnread);
    if forall r :: r in recs ==> r.delivered then
      FilterNone(recs, IsUnread);
      |unread|
    else
      |unread|
  }

  /** Appending a delivered recommendation does not change the unread count. */
  lemma DeliveredAddsNoUnread(recs: seq<Recommendation>, r: Recommendation)
    requires r.delivered
    ensures UnreadRecommendations(recs + [r]) == UnreadRecommendations(recs)
  {
    FilterAppend(recs, [r], IsUnread);
    FilterNone([r], IsUnread);
  }

  /** Appending an undelivered recommendation raises the unread count by one. */
  lemma UndeliveredAddsOne(recs: seq<Recommendation>, r: Recommendation)
    requires !r.delivered
    ensures UnreadRecommendations(recs + [r]) == UnreadRecommendations(recs) + 1
  {
    FilterAppend(recs, [r], IsUnread);
    FilterAll([r], IsUnread);
  }

  /** The dashboard's own urgency badge: only 'high' stands out. */
  function DashboardUrgencyBadge(urgency: string): (b: Badge)
    ensures b == Destructive <==> urgency == "high"
    ensures b != Outline
  {
    if urgency == "high" then Destructive else Secondary
  }

  // ---- Earnings grouped by platform ----

  function OnPlatform(p: string): DayEntry -> bool
  {
    (e: DayEntry) => e.platform == p
  }

  /** Reference definition: the earnings of the entries on platform `p`. */
  function PlatformTotal(s: seq<DayEntry>, p: string): int
  {
    Sum(Filter(s, OnPlatform(p)), EntryEarnings)
  }

  function Platforms(s: seq<DayEntry>): set<string>
  {
    set e | e in s :: e.platform
  }

  lemma PlatformTotalAbsent(s: seq<DayEntry>, p: string)
    requires p !in Platforms(s)
    ensures PlatformTotal(s, p) == 0
  {
    FilterNone(s, OnPlatform(p));
  }

  lemma PlatformTotalSnoc(init: seq<DayEntry>, e: DayEntry, p: string)
    ensures PlatformTotal(init + [e], p) == PlatformTotal(init, p) + (if e.platform == p then e.earnings else 0)
  {
    FilterAppend(init, [e], OnPlatform(p));
    assert [e][1..] == [];
    SumAppend(Filter(init, OnPlatform(p)), Filter([e], OnPlatform(p)), EntryEarnings);
  }

  lemma PlatformsSnoc(init: seq<DayEntry>, e: DayEntry)
    ensures Platforms(init + [e]) == Platforms(init) + {e.platform}
  {
    assert forall x :: x in init + [e] <==> x in init || x == e;
  }

  /** The `reduce` that builds `platformStats`, entry by entry:
      `acc[p] = (acc[p] || 0) + earnings`. */
  function PlatformStats(s: seq<DayEntry>): (m: map<string, int>)
    ensures m.Keys == Platforms(s)
  {
    if s == [] then map[]
    else
      var init, e := s[..|s| - 1], s[|s| - 1];
      assert s == init + [e];
      PlatformsSnoc(init, e);
      var acc := PlatformStats(init);
      acc[e.platform := (if e.platform in acc then acc[e.platform] else 0) + e.earnings]
  }

  /** Each value of `platformStats` is the platform's total earnings. */
  lemma {:induction false} PlatformStatsTotals(s: seq<DayEntry>)
    ensures forall p :: p in PlatformStats(s) ==> PlatformStats(s)[p] == PlatformTotal(s, p)
  {
    if s != [] {
      var init, e := s[..|s| - 1], s[|s| - 1];
      assert s == init + [e];
      PlatformStatsTotals(init);
      var acc, m := PlatformStats(init), PlatformStats(s);
      forall p | p in m ensures m[p] == PlatformTotal(s, p) {
        PlatformTotalSnoc(init, e, p);
        if p !in acc {
          PlatformTotalAbsent(init, p);
        }
      }
    }
  }

  /** The key order of `platformStats`, which `Object.entries` follows:
      each platform where it first appears. */
  function PlatformOrder(s: seq<DayEntry>): (r: seq<string>)
    ensures NoDup(r)
    ensures forall p :: p in r <==> p in Platforms(s)
  {
    if s == [] then []
    else
      var init, e := s[..|s| - 1], s[|s| - 1];
      assert s == init + [e];
      PlatformsSnoc(init, e);
      var r := PlatformOrder(init);
      if e.platform in r then r else r + [e.platform]
  }

  /** The values of `stats` in the order `order` lists the keys. */
  function StatValues(order: seq<string>, stats: map<string, int>): (r: seq<int>)
    requires forall p :: p in order ==> p in stats
    ensures |r| == |order|
    ensures forall i :: 0 <= i < |r| ==> r[i] == stats[order[i]]
  {
    if order == [] then [] else [stats[order[0]]] + StatValues(order[1..], stats)
  }

  /** `Object.entries(platformStats).sort(([, a], [, b]) => b - a)[0]`. */
  function TopPlatform(s: seq<DayEntry>): (r: Option<(string, int)>)
    ensures r.None? <==> s == []
  {
    if s == [] then None
    else
      var order, stats := PlatformOrder(s), PlatformStats(s);
      assert s[0] in s;
      var k := FirstMaxIndex(StatValues(order, stats));
      Some((order[k], stats[order[k]]))
  }

  /** The top platform has the highest total, and on a tie the winner is the
      one that comes first in key order. */
  lemma TopPlatformIsMax(s: seq<DayEntry>)
    requires s != []
    ensures TopPlatform(s).value.0 in Platforms(s)
    ensures TopPlatform(s).value.1 == PlatformTotal(s, TopPlatform(s).value.0)
    ensures forall q :: q in Platforms(s) ==> PlatformTotal(s, q) <= TopPlatform(s).value.1
    ensures forall j ::
      (0 <= j < |PlatformOrder(s)| && PlatformOrder(s)[j] != TopPlatform(s).value.0 &&
       PlatformTotal(s, PlatformOrder(s)[j]) == TopPlatform(s).value.1) ==>
      TopPlatform(s).value.0 in PlatformOrder(s)[..j]
  {
    var order, stats := PlatformOrder(s), PlatformStats(s);
    assert s[0] in s;
    var totals := StatValues(order, stats);
    var k := FirstMaxIndex(totals);
    PlatformStatsTotals(s);
    assert TopPlatform(s) == Some((order[k], totals[k]));
    forall q | q in Platforms(s) ensures PlatformTotal(s, q) <= totals[k] {
      var i :| 0 <= i < |order| && order[i] == q;
      assert totals[i] == PlatformTotal(s, q);
    }
    forall j | 0 <= j < |order| && order[j] != order[k] && PlatformTotal(s, order[j]) == totals[k]
      ensures order[k] in order[..j]
    {
      FirstTieAfter(order, totals, k, j);
    }
  }

  /** With every total before position `k` below the one at `k`, a different
      key with the same total sits after `k`. */
  lemma FirstTieAfter(order: seq<string>, totals: seq<int>, k: nat, j: nat)
    requires |totals| == |order| && k < |order| && j < |order|
    requires forall i :: 0 <= i < k ==> totals[i] < totals[k]
    requires totals[j] == totals[k] && order[j] != order[k]
    ensures order[k] in order[..j]
  {
    assert k < j;
    assert order[..j][k] == order[k];
  }

  /** Adding up the grouped totals in key order. */
  function SumTotals(ps: seq<string>, s: seq<DayEntry>): int
  {
    if ps == [] then 0 else PlatformTotal(s, ps[0]) + SumTotals(ps[1..], s)
  }

  lemma {:induction false} SumTotalsSnoc(ps: seq<string>, init: seq<DayEntry>, e: DayEntry)
    requires NoDup(ps)
    ensures SumTotals(ps, init + [e]) == SumTotals(ps, init) + (if e.platform in ps then e.earnings else 0)
  {
    if ps != [] {
      assert NoDup(ps[1..]) by {
        forall i, j | 0 <= i < j < |ps[1..]| ensures ps[1..][i] != ps[1..][j] {
          assert ps[1..][i] == ps[i + 1] && ps[1..][j] == ps[j + 1];
        }
      }
      SumTotalsSnoc(ps[1..], init, e);
      PlatformTotalSnoc(init, e, ps[0]);
      assert e.platform in ps <==> e.platform == ps[0] || e.platform in ps[1..] by {
        assert ps == [ps[0]] + ps[1..];
      }
      if e.platform == ps[0] {
        forall j | 0 <= j < |ps[1..]| ensures ps[1..][j] != e.platform {
          assert ps[1..][j] == ps[j + 1];
        }
      }
    }
  }

  lemma {:induction false} SumTotalsEmpty(ps: seq<string>)
    ensures SumTotals(ps, []) == 0
  {
    if ps != [] {
      SumTotalsEmpty(ps[1..]);
    }
  }

  lemma {:induction false} SumTotalsCovering(ps: seq<string>, s: seq<DayEntry>)
    requires NoDup(ps)
    requires forall p :: p in Platforms(s) ==> p in ps
    ensures SumTotals(ps, s) == Sum(s, EntryEarnings)
  {
    if s == [] {
      SumTotalsEmpty(ps);
    } else {
      var init, e := s[..|s| - 1], s[|s| - 1];
      assert s == init + [e];
      PlatformsSnoc(init, e);
      SumTotalsCovering(ps, init);
      SumTotalsSnoc(ps, init, e);
      SumAppend(init, [e], EntryEarnings);
      assert [e][1..] == [];
    }
  }

  /** The values of `platformStats` add up to the total earnings. */
  lemma PlatformStatsAddUp(s: seq<DayEntry>)
    ensures SumTotals(PlatformOrder(s), s) == Sum(s, EntryEarnings)
  {
    SumTotalsCovering(PlatformOrder(s), s);
  }

  /** Later entries never reorder the platforms already seen. */
  lemma {:induction false} PlatformOrderPrefix(a: seq<DayEntry>, b: seq<DayEntry>)
    ensures |PlatformOrder(a)| <= |PlatformOrder(a + b)|
    ensures PlatformOrder(a + b)[..|PlatformOrder(a)|] == PlatformOrder(a)
    decreases |b|
  {
    if b == [] {
      assert a + b == a;
    } else {
      var b', e := b[..|b| - 1], b[|b| - 1];
      assert a + b == (a + b') + [e];
      PlatformOrderPrefix(a, b');
    }
  }

  /** On a tie for the top total, the platform chosen is the one used first:
      when a tied platform is used at position `k`, the chosen one was already
      used before `k`. */
  lemma TieGoesToFirstAppearance(s: seq<DayEntry>, k: nat)
    requires k < |s| && TopPlatform(s).Some?
    requires s[k].platform != TopPlatform(s).value.0
    requires PlatformTotal(s, s[k].platform) == TopPlatform(s).value.1
    ensures TopPlatform(s).value.0 in Platforms(s[..k])
  {
    var p, q := TopPlatform(s).value.0, s[k].platform;
    var prefix, order := PlatformOrder(s[..k + 1]), PlatformOrder(s);
    PlatformOrderTake(s, k + 1);
    UsedAt(s, k);
    var j :| 0 <= j < |prefix| && prefix[j] == q;
    TieBefore(s, j);
    PrefixBefore(order, prefix, j, p);
  }

  lemma UsedAt(s: seq<DayEntry>, k: nat)
    requires k < |s|
    ensures s[k].platform in PlatformOrder(s[..k + 1])
    ensures Platforms(s[..k + 1]) == Platforms(s[..k]) + {s[k].platform}
  {
    assert s[..k + 1] == s[..k] + [s[k]];
    PlatformsSnoc(s[..k], s[k]);
  }

  lemma PlatformOrderTake(s: seq<DayEntry>, n: nat)
    requires n <= |s|
    ensures |PlatformOrder(s[..n])| <= |PlatformOrder(s)|
    ensures PlatformOrder(s)[..|PlatformOrder(s[..n])|] == PlatformOrder(s[..n])
  {
    assert s == s[..n] + s[n..];
    PlatformOrderPrefix(s[..n], s[n..]);
  }

  lemma TieBefore(s: seq<DayEntry>, j: nat)
    requires s != [] && j < |PlatformOrder(s)|
    requires PlatformOrder(s)[j] != TopPlatform(s).value.0
    requires PlatformTotal(s, PlatformOrder(s)[j]) == TopPlatform(s).value.1
    ensures TopPlatform(s).value.0 in PlatformOrder(s)[..j]
  {
    TopPlatformIsMax(s);
  }

  lemma PrefixBefore(order: seq<string>, prefix: seq<string>, j: nat, p: string)
    requires |prefix| <= |order| && order[..|prefix|] == prefix
    requires j < |prefix| && p in order[..j]
    ensures p in prefix
  {
    assert order[..j] == prefix[..j];
  }
}
