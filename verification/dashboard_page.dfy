/**
 * The professional's overview: "updated ... ago" wording, the figures
 * aggregated over all owned queues, and the truncated lists.  Everything
 * here is a pure function of the fetched queues and of the clock, which is
 * passed in as milliseconds.
 */
module DashboardPage {
  import opened Entities
  import Json

  // ---------------------------------------------------------------------
  // "Updated ... ago"
  // ---------------------------------------------------------------------

  const JustNow: string := "à l'instant"
  const OneMinuteAgo: string := "il y a 1 min"
  const OneHourAgo: string := "il y a 1h"

  const AgoPrefix: string := "il y a "

  /**
   * `il y a ${n}` followed by a unit (" min" or "h"): the prefix, then the
   * decimal digits of `n`, then the unit.
   */
  function Ago(n: nat, unit: string): (r: string)
    ensures |r| == |AgoPrefix| + |Json.NatToString(n)| + |unit|
    ensures r[..|AgoPrefix|] == AgoPrefix && r[|r| - |unit|..] == unit
    ensures Json.AllDigits(r[|AgoPrefix|..|r| - |unit|]) && Json.DigitsValue(r[|AgoPrefix|..|r| - |unit|]) == n
    ensures r != JustNow
  {
    var digits := Json.NatToString(n);
    var r := AgoPrefix + digits + unit;
    assert r[|AgoPrefix|..|r| - |unit|] == digits;
    assert r[..|AgoPrefix|] == AgoPrefix;
    assert r[|r| - |unit|..] == unit;
    Json.DigitsValueOfNatToString(n);
    assert r[0] != JustNow[0];
    r
  }

  /** The special cases are the general wording for one: "il y a 1 min" is one minute, "il y a 1h" one hour. */
  lemma OneUnitAgo()
    ensures OneMinuteAgo == Ago(1, " min") && OneHourAgo == Ago(1, "h")
  {
    assert Json.NatToString(1) == "1";
  }

  /** Flooring division by `d` is determined by a quotient and a remainder in range. */
  lemma DivUnique(e: int, d: int, q: int, r: int)
    requires d > 0 && e == d * q + r && 0 <= r < d
    ensures e / d == q
  {
    var q', r' := e / d, e % d;
    assert d * q' + r' == e;
    if q' < q {
      MulAtLeast(d, q - q');
    } else if q < q' {
      MulAtLeast(d, q' - q);
    }
  }

  lemma MulAtLeast(d: int, k: int)
    requires d > 0 && k >= 1
    ensures d * k >= d
  {
  }

  /** Whole minutes of whole seconds are whole minutes of the milliseconds, and likewise for hours. */
  lemma ElapsedUnits(e: int)
    ensures e / 1000 < 60 <==> e < 60_000
    ensures (e / 1000) / 60 == e / 60_000
    ensures ((e / 1000) / 60) / 60 == e / 3_600_000
  {
    var seconds := e / 1000;
    var minutes := seconds / 60;
    var hours := minutes / 60;
    assert e == 60_000 * minutes + (1000 * (seconds % 60) + e % 1000);
    DivUnique(e, 60_000, minutes, 1000 * (seconds % 60) + e % 1000);
    assert e == 3_600_000 * hours + (60_000 * (minutes % 60) + 1000 * (seconds % 60) + e % 1000);
    DivUnique(e, 3_600_000, hours, 60_000 * (minutes % 60) + 1000 * (seconds % 60) + e % 1000);
  }

  /**
   * `timeAgo(date)` with `Date.now()` as `nowMs` and `date.getTime()` as
   * `thenMs`: the elapsed whole seconds, then whole minutes, then whole
   * hours, each by flooring division.  Stated on the elapsed milliseconds
   * `e`: below one minute (a clock running behind included) it is "just
   * now", then one minute, then whole minutes up to 59, then one hour, then
   * whole hours.
   */
  function TimeAgo(nowMs: int, thenMs: int): (r: string)
    ensures var e := nowMs - thenMs;
      (r == JustNow <==> e < 60_000) &&
      (60_000 <= e < 120_000 ==> r == OneMinuteAgo) &&
      (120_000 <= e < 3_600_000 ==> r == Ago(e / 60_000, " min")) &&
      (3_600_000 <= e < 7_200_000 ==> r == OneHourAgo) &&
      (7_200_000 <= e ==> r == Ago(e / 3_600_000, "h"))
  {
    ElapsedUnits(nowMs - thenMs);
    var seconds := (nowMs - thenMs) / 1000;
    if seconds < 60 then JustNow
    else
      var minutes := seconds / 60;
      if minutes == 1 then OneMinuteAgo
      else if minutes < 60 then Ago(minutes, " min")
      else
        var hours := minutes / 60;
        if hours == 1 then OneHourAgo
        else Ago(hours, "h")
  }

  /** The wording never goes back in time: a later clock never reads "just now" once an earlier one did not. */
  lemma TimeAgoLeavesJustNow(nowMs: int, laterMs: int, thenMs: int)
    requires nowMs <= laterMs && TimeAgo(nowMs, thenMs) != JustNow
    ensures TimeAgo(laterMs, thenMs) != JustNow
  {
  }

  // ---------------------------------------------------------------------
  // Aggregates
  // ---------------------------------------------------------------------

  /** `queues.reduce((sum, q) => sum + pick(q.stats), acc)`: the left fold the page runs. */
  function ReduceSum(acc: int, qs: seq<QueueWithStats>, pick: QueueStats -> int): int
    decreases |qs|
  {
    if qs == [] then acc else ReduceSum(acc + pick(qs[0].stats), qs[1..], pick)
  }

  /** The sum of the picked figure over the queues, as a reference definition. */
  function Sum(qs: seq<QueueWithStats>, pick: QueueStats -> int): int
    decreases |qs|
  {
    if qs == [] then 0 else Sum(qs[..|qs| - 1], pick) + pick(qs[|qs| - 1].stats)
  }

  lemma {:induction false} SumCons(q: QueueWithStats, qs: seq<QueueWithStats>, pick: QueueStats -> int)
    ensures Sum([q] + qs, pick) == pick(q.stats) + Sum(qs, pick)
    decreases |qs|
  {
    if qs == [] {
      assert ([q] + qs)[..0] == [];
    } else {
      var last := |qs| - 1;
      assert ([q] + qs)[..|[q] + qs| - 1] == [q] + qs[..last];
      SumCons(q, qs[..last], pick);
    }
  }

  /** The page's fold computes the sum. */
  lemma {:induction false} ReduceSumIsSum(acc: int, qs: seq<QueueWithStats>, pick: QueueStats -> int)
    ensures ReduceSum(acc, qs, pick) == acc + Sum(qs, pick)
    decreases |qs|
  {
    if qs != [] {
      ReduceSumIsSum(acc + pick(qs[0].stats), qs[1..], pick);
      SumCons(qs[0], qs[1..], pick);
      assert [qs[0]] + qs[1..] == qs;
    }
  }

  /** The same fold over the fractional no-show rates. */
  function ReduceRates(acc: real, qs: seq<QueueWithStats>): real
    decreases |qs|
  {
    if qs == [] then acc else ReduceRates(acc + qs[0].stats.noShowRate, qs[1..])
  }

  /** A rate is a percentage. */
  predicate RatesArePercentages(qs: seq<QueueWithStats>) {
    forall i :: 0 <= i < |qs| ==> 0.0 <= qs[i].stats.noShowRate <= 100.0
  }

  /** Folding percentages adds at least nothing and at most 100 per queue. */
  lemma {:induction false} ReduceRatesBounds(acc: real, qs: seq<QueueWithStats>)
    requires RatesArePercentages(qs)
    ensures acc <= ReduceRates(acc, qs) <= acc + 100.0 * (|qs| as real)
    decreases |qs|
  {
    if qs != [] {
      assert RatesArePercentages(qs[1..]) by {
        forall i | 0 <= i < |qs[1..]| ensures 0.0 <= qs[1..][i].stats.noShowRate <= 100.0 {
          assert qs[1..][i] == qs[i + 1];
        }
      }
      ReduceRatesBounds(acc + qs[0].stats.noShowRate, qs[1..]);
    }
  }

  /** `Math.round`: the nearest integer, halves rounded up. */
  function Round(x: real): (r: int)
    ensures r as real <= x + 0.5 < r as real + 1.0
  {
    (x + 0.5).Floor
  }

  /** The figures shown in the stat cards. */
  datatype Aggregates = Aggregates(totalQueues: nat, totalTicketsToday: int, totalWaiting: int, avgNoShowRate: int)

  function TotalTodayOf(s: QueueStats): int { s.totalToday }
  function WaitingOf(s: QueueStats): int { s.waiting }

  /**
   * The stat cards: the number of queues, the sums of today's tickets and
   * of waiting people, and the half-up rounded mean no-show rate (0 for no
   * queue).
   */
  function AggregatesOf(qs: seq<QueueWithStats>): (a: Aggregates)
    ensures a.totalQueues == |qs|
    ensures a.totalTicketsToday == Sum(qs, TotalTodayOf)
    ensures a.totalWaiting == Sum(qs, WaitingOf)
    ensures qs == [] ==> a.avgNoShowRate == 0
    ensures qs != [] ==>
      var mean := ReduceRates(0.0, qs) / (|qs| as real);
      a.avgNoShowRate as real <= mean + 0.5 < a.avgNoShowRate as real + 1.0
  {
    ReduceSumIsSum(0, qs, TotalTodayOf);
    ReduceSumIsSum(0, qs, WaitingOf);
    Aggregates(
      |qs|,
      ReduceSum(0, qs, TotalTodayOf),
      ReduceSum(0, qs, WaitingOf),
      if |qs| > 0 then Round(ReduceRates(0.0, qs) / (|qs| as real)) else 0)
  }

  /** With percentages as rates, the average no-show rate is a percentage too. */
  lemma AvgNoShowRateIsPercentage(qs: seq<QueueWithStats>)
    requires RatesArePercentages(qs)
    ensures 0 <= AggregatesOf(qs).avgNoShowRate <= 100
  {
    if qs != [] {
      ReduceRatesBounds(0.0, qs);
      var n := |qs| as real;
      var mean := ReduceRates(0.0, qs) / n;
      assert 0.0 <= mean <= 100.0 by {
        assert 0.0 <= ReduceRates(0.0, qs) <= 100.0 * n;
      }
    }
  }

  /** Ticket counts are never negative. */
  predicate CountsNonNegative(qs: seq<QueueWithStats>) {
    forall i :: 0 <= i < |qs| ==> qs[i].stats.totalToday >= 0
  }

  /** With non-negative counts, today's total is 0 exactly when every queue has had no ticket today. */
  lemma {:induction false} TotalZeroIffNoTickets(qs: seq<QueueWithStats>)
    requires CountsNonNegative(qs)
    ensures Sum(qs, TotalTodayOf) >= 0
    ensures Sum(qs, TotalTodayOf) == 0 <==> forall i :: 0 <= i < |qs| ==> qs[i].stats.totalToday == 0
    decreases |qs|
  {
    if qs != [] {
      var init := qs[..|qs| - 1];
      assert CountsNonNegative(init) by {
        forall i | 0 <= i < |init| ensures init[i].stats.totalToday >= 0 {
          assert init[i] == qs[i];
        }
      }
      TotalZeroIffNoTickets(init);
      if Sum(qs, TotalTodayOf) == 0 {
        forall i | 0 <= i < |qs| ensures qs[i].stats.totalToday == 0 {
          if i < |qs| - 1 {
            assert init[i] == qs[i];
          }
        }
      }
      if forall i :: 0 <= i < |qs| ==> qs[i].stats.totalToday == 0 {
        forall i | 0 <= i < |init| ensures init[i].stats.totalToday == 0 {
          assert init[i] == qs[i];
        }
      }
    }
  }

  /** The chart panel. */
  datatype Chart = NoTicketToday | HourlyChart

  /** "Aucun ticket aujourd'hui" exactly when today's total is 0. */
  function ChartOf(qs: seq<QueueWithStats>): (c: Chart)
    ensures c == NoTicketToday <==> AggregatesOf(qs).totalTicketsToday == 0
  {
    if AggregatesOf(qs).totalTicketsToday == 0 then NoTicketToday else HourlyChart
  }

  // ---------------------------------------------------------------------
  // Lists
  // ---------------------------------------------------------------------

  /** `queues.slice(0, limit)`: the first `min(limit, n)` queues, in order. */
  function Slice(qs: seq<QueueWithStats>, limit: nat): (r: seq<QueueWithStats>)
    ensures |r| == if |qs| < limit then |qs| else limit
    ensures forall i :: 0 <= i < |r| ==> r[i] == qs[i]
  {
    if |qs| < limit then qs else qs[..limit]
  }

  /** The quick-access list: the first five queues. */
  function QuickList(qs: seq<QueueWithStats>): seq<QueueWithStats> {
    Slice(qs, 5)
  }

  /** The recent-activity list: the first three queues. */
  function RecentActivity(qs: seq<QueueWithStats>): seq<QueueWithStats> {
    Slice(qs, 3)
  }

  /** Recent activity shows the head of the quick list. */
  lemma RecentActivityStartsQuickList(qs: seq<QueueWithStats>)
    ensures RecentActivity(qs) == QuickList(qs)[..|RecentActivity(qs)|]
  {
  }
}
