/**
 * `TripFactory.getAllTripRoutes`: snapshot the store, enumerate every simple path
 * between the two points, drop the single-hop ones, total each remaining path into a
 * trip, and mark one fastest and one cheapest trip.
 */
module TripFactory {
  import opened Outcomes
  import opened Entities
  import opened Trips
  import opened Storage
  import opened PathSearch
  import opened Selection

  /** The sum of the route times of a path, in route order. */
  function SumTime(p: seq<Route>): int
  {
    if p == [] then 0 else SumTime(p[..|p| - 1]) + p[|p| - 1].time
  }

  /** The sum of the route costs of a path, in route order. */
  function SumCost(p: seq<Route>): int
  {
    if p == [] then 0 else SumCost(p[..|p| - 1]) + p[|p| - 1].cost
  }

  /** The totals of each path, in order. */
  function TotalsOf(ps: seq<seq<Route>>): seq<Totals>
  {
    seq(|ps|, k requires 0 <= k < |ps| => Totals(SumTime(ps[k]), SumCost(ps[k])))
  }

  /** A path that qualifies as a trip: simple, over stored routes, and at least two hops long. */
  ghost predicate IsTripPath(routes: map<RouteKey, Route>, from: Point, to: Point, p: seq<Route>)
  {
    IsSimplePath(routes, from, to, p) && |p| >= 2
  }

  /** The paths that have at least two routes, in their original order. */
  function Qualifying(ps: seq<seq<Route>>): seq<seq<Route>>
  {
    if ps == [] then []
    else Qualifying(ps[..|ps| - 1]) + (if |ps[|ps| - 1]| >= 2 then [ps[|ps| - 1]] else [])
  }

  /** A path qualifies exactly when it is one of the paths and has at least two routes. */
  lemma {:induction false} QualifyingMembers(ps: seq<seq<Route>>)
    ensures forall p :: p in Qualifying(ps) <==> p in ps && |p| >= 2
  {
    if ps != [] {
      var init := ps[..|ps| - 1];
      QualifyingMembers(init);
      assert ps == init + [ps[|ps| - 1]];
    }
  }

  /** Extending the prefix of paths by one path extends the qualifying ones by at most that path. */
  lemma QualifyingPrefix(ps: seq<seq<Route>>, n: nat)
    requires n < |ps|
    ensures Qualifying(ps[..n + 1]) == Qualifying(ps[..n]) + (if |ps[n]| >= 2 then [ps[n]] else [])
  {
    var q := ps[..n + 1];
    assert q[..|q| - 1] == ps[..n];
  }

  lemma {:induction false} QualifyingNoDups(ps: seq<seq<Route>>)
    requires NoDups(ps)
    ensures NoDups(Qualifying(ps))
  {
    if ps != [] {
      var init := ps[..|ps| - 1];
      var last := ps[|ps| - 1];
      assert NoDups(init);
      QualifyingNoDups(init);
      QualifyingMembers(init);
      assert last !in init;
    }
  }

  /** Trip `t` was built from path `p` of a query from `from` to `to`. */
  ghost predicate Describes(t: Trip, from: Point, to: Point, p: seq<Route>)
    reads t
  {
    && t.from == from && t.to == to && t.routes == p
    && t.totalTime == SumTime(p) && t.totalCost == SumCost(p)
  }

  /** One more qualifying path is one more step of the selection. */
  lemma RunExtends(ps: seq<seq<Route>>, p: seq<Route>)
    ensures Run(TotalsOf(ps + [p])) == Step(Run(TotalsOf(ps)), |ps|, Totals(SumTime(p), SumCost(p)))
  {
    var ts := TotalsOf(ps + [p]);
    assert ts[..|ts| - 1] == TotalsOf(ps);
  }

  /** The inner loop: collect the routes of a path and add up their times and costs. */
  method TotalPath(path: seq<Route>) returns (tripRoutes: seq<Route>, totalTime: int, totalCost: int)
    ensures tripRoutes == path
    ensures totalTime == SumTime(path) && totalCost == SumCost(path)
  {
    totalTime, totalCost := 0, 0;
    tripRoutes := [];
    for m := 0 to |path|
      invariant tripRoutes == path[..m]
      invariant totalTime == SumTime(path[..m]) && totalCost == SumCost(path[..m])
    {
      assert path[..m + 1][..m] == path[..m];
      tripRoutes := tripRoutes + [path[m]];
      totalTime := totalTime + path[m].time;
      totalCost := totalCost + path[m].cost;
    }
    assert path[..|path|] == path;
  }

  /**
   * `trips` are distinct, unmarked trip objects, and trip `k` was built from path `k`
   * of `discovered`.
   */
  ghost predicate Built(trips: seq<Trip>, from: Point, to: Point, discovered: seq<seq<Route>>)
    reads trips
  {
    && |trips| == |discovered|
    && (forall a, b :: 0 <= a < b < |trips| ==> trips[a] != trips[b])
    && (forall k :: 0 <= k < |trips| ==> Describes(trips[k], from, to, discovered[k]))
    && (forall k :: 0 <= k < |trips| ==> !trips[k].fastest && !trips[k].cheapest)
  }

  /**
   * The outcome of a trip query on the route table `routes`: `discovered` holds every
   * trip path exactly once, trip `k` is a distinct trip object built from path `k`,
   * and exactly the trips the selection picks carry the fastest and cheapest marks.
   */
  ghost predicate Enumerates(routes: map<RouteKey, Route>, from: Point, to: Point, trips: seq<Trip>, discovered: seq<seq<Route>>)
    reads trips
  {
    && (forall p :: p in discovered <==> IsTripPath(routes, from, to, p))
    && NoDups(discovered)
    && |trips| == |discovered|
    && (forall a, b :: 0 <= a < b < |trips| ==> trips[a] != trips[b])
    && (forall k :: 0 <= k < |trips| ==> Describes(trips[k], from, to, discovered[k]))
    && (forall k :: 0 <= k < |trips| ==> (trips[k].fastest <==> k == Run(TotalsOf(discovered)).minTimeIndex))
    && (forall k :: 0 <= k < |trips| ==> (trips[k].cheapest <==> k == Run(TotalsOf(discovered)).minCostIndex))
  }

  /** The fastest mark goes to a trip path whose total time no trip path beats; none goes out when there is no trip path. */
  lemma FastestIsMinimal(routes: map<RouteKey, Route>, from: Point, to: Point, discovered: seq<seq<Route>>)
    requires forall p :: p in discovered <==> IsTripPath(routes, from, to, p)
    ensures discovered == [] <==> Run(TotalsOf(discovered)).minTimeIndex == -1
    ensures discovered != [] ==> 0 <= Run(TotalsOf(discovered)).minTimeIndex < |discovered|
    ensures discovered != [] ==> forall q :: IsTripPath(routes, from, to, q) ==>
              SumTime(discovered[Run(TotalsOf(discovered)).minTimeIndex]) <= SumTime(q)
  {
    var ts := TotalsOf(discovered);
    RunSelects(ts);
    if discovered != [] {
      var f := Run(ts).minTimeIndex;
      forall q | IsTripPath(routes, from, to, q) ensures SumTime(discovered[f]) <= SumTime(q) {
        var j :| 0 <= j < |discovered| && discovered[j] == q;
        assert ts[f].time <= ts[j].time;
      }
    }
  }

  /** The cheapest mark goes to a trip path whose total cost no trip path beats; none goes out when there is no trip path. */
  lemma CheapestIsMinimal(routes: map<RouteKey, Route>, from: Point, to: Point, discovered: seq<seq<Route>>)
    requires forall p :: p in discovered <==> IsTripPath(routes, from, to, p)
    ensures discovered == [] <==> Run(TotalsOf(discovered)).minCostIndex == -1
    ensures discovered != [] ==> 0 <= Run(TotalsOf(discovered)).minCostIndex < |discovered|
    ensures discovered != [] ==> forall q :: IsTripPath(routes, from, to, q) ==>
              SumCost(discovered[Run(TotalsOf(discovered)).minCostIndex]) <= SumCost(q)
  {
    var ts := TotalsOf(discovered);
    RunSelects(ts);
    if discovered != [] {
      var c := Run(ts).minCostIndex;
      forall q | IsTripPath(routes, from, to, q) ensures SumCost(discovered[c]) <= SumCost(q) {
        var j :| 0 <= j < |discovered| && discovered[j] == q;
        assert ts[c].cost <= ts[j].cost;
      }
    }
  }

  /** The values of the route table in iteration order, which the source leaves to the hash table. */
  method ListRoutes(routes: map<RouteKey, Route>) returns (edges: seq<Route>)
    requires forall k :: k in routes ==> KeyOf(routes[k]) == k
    ensures ListsRoutes(edges, routes)
  {
    edges := [];
    var rest := routes;
    while rest != map[]
      invariant rest.Keys <= routes.Keys
      invariant forall k :: k in rest ==> rest[k] == routes[k]
      invariant forall e :: e in edges ==> e in routes.Values && KeyOf(e) !in rest
      invariant forall k :: k in routes && k !in rest ==> routes[k] in edges
      invariant NoDups(edges)
      decreases |rest|
    {
      var k :| k in rest;
      edges := edges + [rest[k]];
      rest := rest - {k};
    }
  }

  /**
   * All trips from `from` to `to`. `discovered` is the order in which the search
   * found the qualifying paths; trip `k` is built from path `k`.
   */
  method GetAllTripRoutes(store: MapStorage, from: Point, to: Point) returns (trips: seq<Trip>, ghost discovered: seq<seq<Route>>)
    requires store.Valid()
    // the only caller, the controller, passes stored points
    requires from in store.GetPoints() && to in store.GetPoints()
    ensures Enumerates(store.routes, from, to, trips, discovered)
    ensures forall k :: 0 <= k < |trips| ==> fresh(trips[k])
  {
    var routes := store.GetRoutes();
    var edges := ListRoutes(routes);
    AllPathsExactlyOnce(routes, edges, from, to);
    if |edges| == 0 {
      NoRoutesNoPaths(edges, from, to);
      trips, discovered := [], [];
    } else {
      var paths := AllPaths(edges, from, to);
      trips, discovered := SelectTrips(paths, from, to);
      QualifyingMembers(paths);
      QualifyingNoDups(paths);
    }
  }

  /**
   * The loop over the enumerated paths: skip single-hop paths, build a trip from each
   * other path, keep the running minima, then mark the fastest and the cheapest trip.
   */
  method SelectTrips(paths: seq<seq<Route>>, from: Point, to: Point) returns (trips: seq<Trip>, ghost discovered: seq<seq<Route>>)
    ensures discovered == Qualifying(paths)
    ensures |trips| == |discovered|
    ensures forall a, b :: 0 <= a < b < |trips| ==> trips[a] != trips[b]
    ensures forall k :: 0 <= k < |trips| ==> fresh(trips[k]) && Describes(trips[k], from, to, discovered[k])
    ensures forall k :: 0 <= k < |trips| ==> (trips[k].fastest <==> k == Run(TotalsOf(discovered)).minTimeIndex)
    ensures forall k :: 0 <= k < |trips| ==> (trips[k].cheapest <==> k == Run(TotalsOf(discovered)).minCostIndex)
  {
    var minTimeIndex, minCostIndex;
    trips, discovered, minTimeIndex, minCostIndex := BuildTrips(paths, from, to);
    RunSelects(TotalsOf(discovered));
    MarkSelected(trips, minTimeIndex, minCostIndex);
  }

  /**
   * The loop over the discovered paths: one unmarked trip per path of at
   * least two routes, and the indices of the fastest and the cheapest of them.
   */
  method BuildTrips(paths: seq<seq<Route>>, from: Point, to: Point)
    returns (trips: seq<Trip>, ghost discovered: seq<seq<Route>>, minTimeIndex: int, minCostIndex: int)
    ensures discovered == Qualifying(paths)
    ensures forall k :: 0 <= k < |trips| ==> fresh(trips[k])
    ensures Built(trips, from, to, discovered)
    ensures minTimeIndex == Run(TotalsOf(discovered)).minTimeIndex
    ensures minCostIndex == Run(TotalsOf(discovered)).minCostIndex
  {
    trips := [];
    discovered := [];
    var minTime: Option<int> := None;
    minTimeIndex := -1;
    var minCost: Option<int> := None;
    minCostIndex := -1;
    var currentIndex := -1;
    ghost var made: set<Trip> := {};
    for n := 0 to |paths|
      invariant discovered == Qualifying(paths[..n])
      invariant currentIndex == |discovered| - 1
      invariant fresh(made) && forall k :: 0 <= k < |trips| ==> trips[k] in made
      invariant Built(trips, from, to, discovered)
      invariant Marks(minTime, minTimeIndex, minCost, minCostIndex) == Run(TotalsOf(discovered))
    {
      var path := paths[n];
      QualifyingPrefix(paths, n);
      // ignore paths that do not have at least two hops
      if |path| <= 1 {
        continue;
      }
      currentIndex := currentIndex + 1;
      var totalTime, totalCost;
      var trip;
      trips, trip, totalTime, totalCost := AppendTrip(trips, discovered, from, to, path);
      made := made + {trip};
      RunExtends(discovered, path);
      discovered := discovered + [path];
      minTime, minTimeIndex, minCost, minCostIndex :=
        Compare(minTime, minTimeIndex, minCost, minCostIndex, currentIndex, totalTime, totalCost);
    }
    assert paths[..|paths|] == paths;
  }

  /** Totals one path and appends an unmarked trip of it to the trips built so far. */
  method AppendTrip(trips: seq<Trip>, ghost discovered: seq<seq<Route>>, from: Point, to: Point, path: seq<Route>)
    returns (trips': seq<Trip>, trip: Trip, totalTime: int, totalCost: int)
    requires Built(trips, from, to, discovered)
    ensures fresh(trip) && trips' == trips + [trip]
    ensures Built(trips', from, to, discovered + [path])
    ensures totalTime == SumTime(path) && totalCost == SumCost(path)
  {
    var tripRoutes;
    tripRoutes, totalTime, totalCost := TotalPath(path);
    trip := new Trip(from, to, tripRoutes, totalTime, totalCost);
    AppendBuilt(trips, trip, from, to, discovered, path);
    trips' := trips + [trip];
  }

  /** Checks whether the trip numbered `index` is the fastest or the cheapest so far. */
  method Compare(minTime: Option<int>, minTimeIndex: int, minCost: Option<int>, minCostIndex: int,
                 index: int, totalTime: int, totalCost: int)
    returns (minTime': Option<int>, minTimeIndex': int, minCost': Option<int>, minCostIndex': int)
    ensures Marks(minTime', minTimeIndex', minCost', minCostIndex')
         == Step(Marks(minTime, minTimeIndex, minCost, minCostIndex), index, Totals(totalTime, totalCost))
  {
    minTime', minTimeIndex', minCost', minCostIndex' := minTime, minTimeIndex, minCost, minCostIndex;
    if Below(totalTime, minTime') || (Equal(totalTime, minTime') && Below(totalCost, minCost')) {
      minTimeIndex' := index;
      minTime' := Some(totalTime);
    }
    if Below(totalCost, minCost') || (Equal(totalCost, minCost') && Below(totalTime, minTime')) {
      minCostIndex' := index;
      minCost' := Some(totalCost);
    }
  }

  lemma AppendBuilt(trips: seq<Trip>, t: Trip, from: Point, to: Point, discovered: seq<seq<Route>>, p: seq<Route>)
    requires Built(trips, from, to, discovered)
    requires t !in trips && Describes(t, from, to, p) && !t.fastest && !t.cheapest
    ensures Built(trips + [t], from, to, discovered + [p])
  {
    var ts, ds := trips + [t], discovered + [p];
    forall k | 0 <= k < |ts| ensures Describes(ts[k], from, to, ds[k]) && !ts[k].fastest && !ts[k].cheapest {
      if k < |trips| {
        assert ts[k] == trips[k] && ds[k] == discovered[k];
      }
    }
  }

  /** Marks trip `fastest` (when it is not -1) as the fastest and trip `cheapest` (likewise) as the cheapest. */
  method MarkSelected(trips: seq<Trip>, fastest: int, cheapest: int)
    requires -1 <= fastest < |trips| && -1 <= cheapest < |trips|
    requires forall a, b :: 0 <= a < b < |trips| ==> trips[a] != trips[b]
    requires forall k :: 0 <= k < |trips| ==> !trips[k].fastest && !trips[k].cheapest
    modifies set k | 0 <= k < |trips| :: trips[k]
    ensures forall k :: 0 <= k < |trips| ==> (trips[k].fastest <==> k == fastest)
    ensures forall k :: 0 <= k < |trips| ==> (trips[k].cheapest <==> k == cheapest)
    ensures forall k :: 0 <= k < |trips| ==> trips[k].totalTime == old(trips[k].totalTime)
  {
    if fastest >= 0 {
      trips[fastest].SetFastest(true);
    }
    if cheapest >= 0 {
      trips[cheapest].SetCheapest(true);
    }
  }
}
