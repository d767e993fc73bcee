/**
 * The fastest/cheapest selection of `TripFactory.getAllTripRoutes`, stated as the
 * source runs it: one pass over the trips in discovery order keeping a running
 * minimum time and a running minimum cost, each with the index of its holder.
 * `None` stands for the `Long.MAX_VALUE` start value ("no minimum yet").
 */
module Selection {
  import opened Outcomes

  /** The totals of one trip. */
  datatype Totals = Totals(time: int, cost: int)

  /** The loop's variables `minTime`, `minTimeIndex`, `minCost`, `minCostIndex`. */
  datatype Marks = Marks(minTime: Option<int>, minTimeIndex: int, minCost: Option<int>, minCostIndex: int)

  /** The values before the first trip: no minimum yet, index -1. */
  const Unmarked := Marks(None, -1, None, -1)

  /** `x < m`, where an absent minimum is larger than every value. */
  predicate Below(x: int, m: Option<int>)
  {
    m.None? || x < m.value
  }

  /** `x == m`, where an absent minimum equals no value. */
  predicate Equal(x: int, m: Option<int>)
  {
    m.Some? && x == m.value
  }

  /**
   * The time comparison: take over when strictly faster, or when as fast and
   * cheaper than the minimum cost of all earlier trips.
   */
  function TimeStep(s: Marks, index: int, t: Totals): Marks
  {
    if Below(t.time, s.minTime) || (Equal(t.time, s.minTime) && Below(t.cost, s.minCost))
    then s.(minTimeIndex := index, minTime := Some(t.time))
    else s
  }

  /**
   * The cost comparison, run after the time comparison: take over when strictly
   * cheaper, or when as cheap and faster than the (already updated) minimum time.
   */
  function CostStep(s: Marks, index: int, t: Totals): Marks
  {
    if Below(t.cost, s.minCost) || (Equal(t.cost, s.minCost) && Below(t.time, s.minTime))
    then s.(minCostIndex := index, minCost := Some(t.cost))
    else s
  }

  /** One iteration of the loop for the trip numbered `index`. */
  function Step(s: Marks, index: int, t: Totals): Marks
  {
    CostStep(TimeStep(s, index, t), index, t)
  }

  /** The loop's variables after the trips `ts`, in order. */
  function Run(ts: seq<Totals>): Marks
  {
    if ts == [] then Unmarked else Step(Run(ts[..|ts| - 1]), |ts| - 1, ts[|ts| - 1])
  }

  /** The earliest trip of minimal cost. */
  ghost predicate IsCheapestAsWritten(ts: seq<Totals>, c: int)
  {
    && 0 <= c < |ts|
    && (forall j :: 0 <= j < |ts| ==> ts[c].cost <= ts[j].cost)
    && (forall j :: 0 <= j < c ==> ts[c].cost < ts[j].cost)
  }

  /**
   * A trip of minimal time that was, when reached, either strictly faster than all
   * earlier trips or as fast and strictly cheaper than all earlier trips, and that no
   * later equally fast trip displaced: each of those costs at least as much as some
   * trip before it.
   */
  ghost predicate IsFastestAsWritten(ts: seq<Totals>, f: int)
  {
    && 0 <= f < |ts|
    && (forall j :: 0 <= j < |ts| ==> ts[f].time <= ts[j].time)
    && ((forall j :: 0 <= j < f ==> ts[f].time < ts[j].time) || (forall j :: 0 <= j < f ==> ts[f].cost < ts[j].cost))
    && (forall j :: f < j < |ts| && ts[j].time == ts[f].time ==> CostNotBelowEarlier(ts, j))
  }

  /** Some trip before trip `j` costs no more than it. */
  ghost predicate CostNotBelowEarlier(ts: seq<Totals>, j: int)
  {
    exists i :: 0 <= i < j < |ts| && ts[i].cost <= ts[j].cost
  }

  /** After the time comparison the minimum time is at most the trip's own, so line 108's time tie-break never holds. */
  lemma CostTieBreakNeverFires(s: Marks, index: int, t: Totals)
    ensures !Below(t.time, TimeStep(s, index, t).minTime)
    ensures Step(s, index, t).minCostIndex == if Below(t.cost, s.minCost) then index else s.minCostIndex
  {
  }

  /** What the loop computes: nothing marked for no trips, otherwise the two characterised trips. */
  lemma {:induction false} RunSelects(ts: seq<Totals>)
    ensures ts == [] ==> Run(ts).minTimeIndex == -1 && Run(ts).minCostIndex == -1
    ensures ts != [] ==> IsFastestAsWritten(ts, Run(ts).minTimeIndex) && IsCheapestAsWritten(ts, Run(ts).minCostIndex)
    ensures ts != [] ==> Run(ts).minTime == Some(ts[Run(ts).minTimeIndex].time)
    ensures ts != [] ==> Run(ts).minCost == Some(ts[Run(ts).minCostIndex].cost)
  {
    if ts != [] {
      var n := |ts| - 1;
      var prev := ts[..n];
      var t := ts[n];
      RunSelects(prev);
      var s := Run(prev);
      var s1 := TimeStep(s, n, t);
      assert Run(ts) == CostStep(s1, n, t);
      assert forall k :: 0 <= k < n ==> prev[k] == ts[k];
      if n == 0 {
        assert Run(ts) == Marks(Some(t.time), 0, Some(t.cost), 0);
      } else {
        var f, c := s.minTimeIndex, s.minCostIndex;
        // the time comparison
        if s1.minTimeIndex == n {
          assert t.time <= ts[f].time;
        } else {
          assert s1 == s;
          forall j | f < j < |ts| && ts[j].time == ts[f].time
            ensures CostNotBelowEarlier(ts, j)
          {
            if j == n {
              assert ts[c].cost <= ts[j].cost;
            } else {
              assert prev[j].time == prev[f].time;
              assert CostNotBelowEarlier(prev, j);
              var i :| 0 <= i < j < |prev| && prev[i].cost <= prev[j].cost;
              assert ts[i].cost <= ts[j].cost;
            }
          }
        }
        // the cost comparison
        assert !Below(t.time, s1.minTime);
        if Run(ts).minCostIndex == n {
          assert t.cost < ts[c].cost;
        }
      }
    }
  }

  /** The characterisation of the fastest trip determines it. */
  lemma FastestAsWrittenIsUnique(ts: seq<Totals>, f: int, g: int)
    requires IsFastestAsWritten(ts, f) && IsFastestAsWritten(ts, g)
    ensures f == g
  {
    assert ts[f].time == ts[g].time;
    assert f < g ==> CostNotBelowEarlier(ts, g);
    assert g < f ==> CostNotBelowEarlier(ts, f);
  }

  /** The characterisation of the cheapest trip determines it. */
  lemma CheapestAsWrittenIsUnique(ts: seq<Totals>, c: int, d: int)
    requires IsCheapestAsWritten(ts, c) && IsCheapestAsWritten(ts, d)
    ensures c == d
  {
    assert ts[c].cost <= ts[d].cost && ts[d].cost <= ts[c].cost;
  }

  /**
   * The time tie-break compares against the minimum cost of all earlier trips, not
   * against the cost of the current fastest trip: here the third trip is as fast as
   * the second and cheaper, yet the second stays fastest because the first is cheaper still.
   */
  lemma TimeTieBreakUsesEarlierMinimumCost()
    ensures var ts := [Totals(5, 10), Totals(1, 50), Totals(1, 20)];
            Run(ts).minTimeIndex == 1 && ts[2].time == ts[1].time && ts[2].cost < ts[1].cost
  {
    var ts := [Totals(5, 10), Totals(1, 50), Totals(1, 20)];
    assert ts[..1] == [Totals(5, 10)] && ts[..2] == [Totals(5, 10), Totals(1, 50)];
    assert Run(ts[..1]) == Marks(Some(5), 0, Some(10), 0);
    assert Run(ts[..2]) == Marks(Some(1), 1, Some(10), 0);
    assert Run(ts) == Marks(Some(1), 1, Some(10), 0);
  }

  /**
   * The cost tie-break never fires: here the third trip is as cheap as the second and
   * faster, yet the second stays cheapest.
   */
  lemma CostTieBreakIgnoresTime()
    ensures var ts := [Totals(1, 50), Totals(10, 5), Totals(5, 5)];
            Run(ts).minCostIndex == 1 && ts[2].cost == ts[1].cost && ts[2].time < ts[1].time
  {
    var ts := [Totals(1, 50), Totals(10, 5), Totals(5, 5)];
    assert ts[..1] == [Totals(1, 50)] && ts[..2] == [Totals(1, 50), Totals(10, 5)];
    assert Run(ts[..1]) == Marks(Some(1), 0, Some(50), 0);
    assert Run(ts[..2]) == Marks(Some(1), 0, Some(5), 1);
    assert Run(ts) == Marks(Some(1), 0, Some(5), 1);
  }
}
