/**
 * `delivery.route.DeliveryController`: the entry point the services call. It
 * works on point names, checks them against the store, turns the store's boolean
 * answers into the source's exceptions (here `Error` values), and answers trip
 * queries through the trip factory. The singleton `MapStorage` instance the source
 * reaches through `getInstance()` is the field `store`.
 */
module Delivery {
  import opened Outcomes
  import opened Entities
  import opened DeliveryErrors
  import opened Trips
  import opened Storage
  import opened PathSearch
  import opened Selection
  import opened TripFactory

  class DeliveryController {
    const store: MapStorage

    ghost predicate Valid()
      reads this, store
    {
      store.Valid()
    }

    constructor (store: MapStorage)
      requires store.Valid()
      ensures this.store == store && Valid()
    {
      this.store := store;
    }

    /** `getRoutes`: the stored routes, each under its own key. */
    function GetRoutes(): (rs: set<Route>)
      reads this, store
      requires Valid()
      ensures forall r :: r in rs <==> Stored(store.routes, r)
    {
      store.GetRoutes().Values
    }

    /**
     * `getAllTripRoutes`: looks both names up and queries the trip factory with the
     * stored points. An unknown name yields a null point, on which the existence check
     * dereferences null.
     */
    method GetAllTripRoutes(from: string, to: string) returns (res: Result<seq<Trip>, Error>, ghost discovered: seq<seq<Route>>)
      requires Valid()
      ensures res.Failure? <==> Point(from) !in store.GetPoints() || Point(to) !in store.GetPoints()
      ensures res.Failure? ==> res.error == NullDereference
      ensures res.Success? ==> Enumerates(store.routes, Point(from), Point(to), res.value, discovered)
      ensures res.Success? ==> forall k :: 0 <= k < |res.value| ==> fresh(res.value[k])
    {
      var fromPoint := store.GetPoint(from);
      var toPoint := store.GetPoint(to);
      if fromPoint.None? || toPoint.None? {
        return Failure(NullDereference), [];
      }
      // both points are stored, so both existence checks pass
      var trips;
      trips, discovered := TripFactory.GetAllTripRoutes(store, fromPoint.value, toPoint.value);
      res := Success(trips);
    }

    /**
     * `getFastestTrip`: the trip the query marks as fastest, which has the least total
     * time of all trip paths; none when there is no trip path.
     */
    method GetFastestTrip(from: string, to: string) returns (res: Result<Option<Trip>, Error>, ghost discovered: seq<seq<Route>>)
      requires Valid()
      ensures res.Failure? <==> Point(from) !in store.GetPoints() || Point(to) !in store.GetPoints()
      ensures res.Failure? ==> res.error == NullDereference
      ensures res.Success? ==> (forall p :: p in discovered <==> IsTripPath(store.routes, Point(from), Point(to), p))
      ensures res.Success? ==> (res.value.None? <==> forall p :: !IsTripPath(store.routes, Point(from), Point(to), p))
      ensures res.Success? && res.value.Some? ==>
                var f := Run(TotalsOf(discovered)).minTimeIndex;
                && 0 <= f < |discovered|
                && Describes(res.value.value, Point(from), Point(to), discovered[f])
                && res.value.value.fastest
                && IsFastestAsWritten(TotalsOf(discovered), f)
                && forall q :: IsTripPath(store.routes, Point(from), Point(to), q) ==> SumTime(discovered[f]) <= SumTime(q)
    {
      var all;
      all, discovered := GetAllTripRoutes(from, to);
      if all.Failure? {
        return Failure(all.error), discovered;
      }
      var trips := all.value;
      FastestIsMinimal(store.routes, Point(from), Point(to), discovered);
      RunSelects(TotalsOf(discovered));
      var found := FirstFastest(trips);
      res := Success(found);
      if discovered != [] {
        assert IsTripPath(store.routes, Point(from), Point(to), discovered[0]);
        assert trips[Run(TotalsOf(discovered)).minTimeIndex].fastest;
      } else {
        assert forall p :: p !in discovered;
      }
    }

    /**
     * `getCheapestTrip`: the trip the query marks as cheapest, which has the least total
     * cost of all trip paths; none when there is no trip path.
     */
    method GetCheapestTrip(from: string, to: string) returns (res: Result<Option<Trip>, Error>, ghost discovered: seq<seq<Route>>)
      requires Valid()
      ensures res.Failure? <==> Point(from) !in store.GetPoints() || Point(to) !in store.GetPoints()
      ensures res.Failure? ==> res.error == NullDereference
      ensures res.Success? ==> (forall p :: p in discovered <==> IsTripPath(store.routes, Point(from), Point(to), p))
      ensures res.Success? ==> (res.value.None? <==> forall p :: !IsTripPath(store.routes, Point(from), Point(to), p))
      ensures res.Success? && res.value.Some? ==>
                var c := Run(TotalsOf(discovered)).minCostIndex;
                && 0 <= c < |discovered|
                && Describes(res.value.value, Point(from), Point(to), discovered[c])
                && res.value.value.cheapest
                && IsCheapestAsWritten(TotalsOf(discovered), c)
                && forall q :: IsTripPath(store.routes, Point(from), Point(to), q) ==> SumCost(discovered[c]) <= SumCost(q)
    {
      var all;
      all, discovered := GetAllTripRoutes(from, to);
      if all.Failure? {
        return Failure(all.error), discovered;
      }
      var trips := all.value;
      CheapestIsMinimal(store.routes, Point(from), Point(to), discovered);
      RunSelects(TotalsOf(discovered));
      var found := FirstCheapest(trips);
      res := Success(found);
      if discovered != [] {
        assert IsTripPath(store.routes, Point(from), Point(to), discovered[0]);
        assert trips[Run(TotalsOf(discovered)).minCostIndex].cheapest;
      } else {
        assert forall p :: p !in discovered;
      }
    }

    /** `addPoint`: rejects a point whose name is taken, otherwise stores it. */
    method AddPoint(p: Point) returns (o: Outcome<Error>)
      requires Valid()
      modifies store
      ensures Valid()
      ensures o.Fail? <==> p.name in old(store.points)
      ensures o.Fail? ==> o.error == ExistingPoint(p) && store.points == old(store.points)
      ensures o.Pass? ==> store.points == old(store.points)[p.name := p]
      ensures store.routes == old(store.routes)
    {
      if store.PointExists(p) {
        return Fail(ExistingPoint(p));
      }
      var _ := store.AddPoint(p);
      o := Pass;
    }

    /** `addRoute(String, String, int, int)`: builds the route from fresh points named `from` and `to` and adds it. */
    method AddRouteNamed(from: string, to: string, time: int, cost: int) returns (res: Result<Route, Error>)
      requires Valid()
      modifies store
      ensures Valid()
      ensures store.points == old(store.points)
      ensures from !in old(store.points) ==> res == Failure(PointNotFound(Point(from)))
      ensures from in old(store.points) && to !in old(store.points) ==> res == Failure(PointNotFound(Point(to)))
      ensures from in old(store.points) && from == to ==> res == Failure(SelfLoop(Point(from), Point(to)))
      ensures (from in old(store.points) && to in old(store.points) && from != to && RouteKey(Point(from), Point(to)) in old(store.routes))
              ==> res == Failure(ExistingRoute(Point(from), Point(to)))
      ensures res.Success? <==> from in old(store.points) && to in old(store.points) && from != to
                                && RouteKey(Point(from), Point(to)) !in old(store.routes)
      ensures res.Success? ==> res.value == Route(Point(from), Point(to), time, cost)
      ensures store.routes == if res.Success? then old(store.routes)[RouteKey(Point(from), Point(to)) := res.value] else old(store.routes)
    {
      var route := Route(Point(from), Point(to), time, cost);
      res := AddRoute(route);
    }

    /**
     * `addRoute(Route)`: the store's answer, with a rejected duplicate turned into
     * ExistingRoute; the store's own errors pass through.
     */
    method AddRoute(r: Route) returns (res: Result<Route, Error>)
      requires Valid()
      modifies store
      ensures Valid()
      ensures store.points == old(store.points)
      ensures r.from.name !in old(store.points) ==> res == Failure(PointNotFound(r.from))
      ensures r.from.name in old(store.points) && r.to.name !in old(store.points) ==> res == Failure(PointNotFound(r.to))
      ensures r.from.name in old(store.points) && r.to.name in old(store.points) && r.from == r.to ==> res == Failure(SelfLoop(r.from, r.to))
      ensures (r.from.name in old(store.points) && r.to.name in old(store.points) && r.from != r.to && KeyOf(r) in old(store.routes))
              ==> res == Failure(ExistingRoute(r.from, r.to))
      ensures res.Success? <==> r.from.name in old(store.points) && r.to.name in old(store.points) && r.from != r.to
                                && KeyOf(r) !in old(store.routes)
      ensures res.Success? ==> res.value == r
      ensures store.routes == if res.Success? then old(store.routes)[KeyOf(r) := r] else old(store.routes)
    {
      var added := store.AddRoute(r);
      if added.Failure? {
        return Failure(added.error);
      }
      if added.value {
        res := Success(r);
      } else {
        res := Failure(ExistingRoute(r.from, r.to));
      }
    }

    /**
     * `getRoute`: PointNotFound for an unknown from name, then for an unknown to name;
     * otherwise the route stored between the two points, if any.
     */
    function GetRoute(from: string, to: string): (r: Result<Option<Route>, Error>)
      reads this, store
      requires Valid()
      ensures from !in store.points ==> r == Failure(PointNotFound(Point(from)))
      ensures from in store.points && to !in store.points ==> r == Failure(PointNotFound(Point(to)))
      ensures r.Success? <==> from in store.points && to in store.points
      ensures r.Success? ==> (r.value.Some? <==> RouteKey(Point(from), Point(to)) in store.routes)
      ensures r.Success? && r.value.Some? ==> r.value.value == store.routes[RouteKey(Point(from), Point(to))]
      ensures r.Success? && r.value.Some? ==> r.value.value.from == Point(from) && r.value.value.to == Point(to)
    {
      var checkFrom := store.EnsurePointExists(Point(from));
      if checkFrom.Fail? then Failure(checkFrom.error)
      else
        var checkTo := store.EnsurePointExists(Point(to));
        if checkTo.Fail? then Failure(checkTo.error)
        else Success(store.GetRoute(BuildRouteKey(from, to)))
    }

    /**
     * `updateRoute`: RouteNotFound when no route runs from `from` to `to`; otherwise
     * that route is replaced by one with the new time and cost.
     */
    method UpdateRoute(from: string, to: string, time: int, cost: int) returns (o: Outcome<Error>)
      requires Valid()
      modifies store
      ensures Valid()
      ensures store.points == old(store.points)
      ensures o.Pass? <==> RouteKey(Point(from), Point(to)) in old(store.routes)
      ensures o.Fail? ==> o.error == RouteNotFound(from, to)
      ensures store.routes == if o.Pass?
                              then old(store.routes)[RouteKey(Point(from), Point(to)) := Route(Point(from), Point(to), time, cost)]
                              else old(store.routes)
    {
      var fromPoint := store.GetPoint(from);
      var toPoint := store.GetPoint(to);
      var check := EnsureRouteExists(from, to);
      if check.Fail? {
        return check;
      }
      // a stored route has stored endpoints, so neither lookup came back null
      var _ := store.UpdateRoute(Route(fromPoint.value, toPoint.value, time, cost));
      o := Pass;
    }

    /** `ensureRouteExists`: RouteNotFound unless a route runs from the point named `from` to the point named `to`. */
    function EnsureRouteExists(from: string, to: string): (o: Outcome<Error>)
      reads this, store
      requires Valid()
      ensures o.Pass? <==> RouteKey(Point(from), Point(to)) in store.routes
      ensures o.Pass? ==> from in store.points && to in store.points && from != to
      ensures o.Fail? ==> o.error == RouteNotFound(from, to)
    {
      if !store.RouteExists(Point(from), Point(to)) then Fail(RouteNotFound(from, to)) else Pass
    }

    /** `deleteRoute`: RouteNotFound when no route runs from `from` to `to`; otherwise that route is removed. */
    method DeleteRoute(from: string, to: string) returns (o: Outcome<Error>)
      requires Valid()
      modifies store
      ensures Valid()
      ensures store.points == old(store.points)
      ensures o.Pass? <==> RouteKey(Point(from), Point(to)) in old(store.routes)
      ensures o.Fail? ==> o.error == RouteNotFound(from, to)
      ensures store.routes == old(store.routes) - {RouteKey(Point(from), Point(to))}
      ensures |store.routes| == if o.Pass? then |old(store.routes)| - 1 else |old(store.routes)|
    {
      var check := EnsureRouteExists(from, to);
      if check.Fail? {
        return check;
      }
      var routeKey := BuildRouteKey(from, to);
      var _ := store.Delete(routeKey);
      o := Pass;
    }

    /** `buildRouteKey`: the key of the stored points with these names, which is the key of the named points. */
    function BuildRouteKey(from: string, to: string): (k: RouteKey)
      reads this, store
      requires Valid()
      requires from in store.points && to in store.points
      ensures k.from.name == from && k.to.name == to
      ensures k.from in store.GetPoints() && k.to in store.GetPoints()
    {
      RouteKey(store.points[from], store.points[to])
    }

    /** `getPoints`: the stored points. */
    function GetPoints(): (s: set<Point>)
      reads this, store
      requires Valid()
      ensures forall p :: p in s <==> p.name in store.points
    {
      store.GetPoints()
    }

    /** `getPoint`: the stored point with that name, if any. */
    function GetPoint(name: string): (r: Option<Point>)
      reads this, store
      requires Valid()
      ensures r.Some? <==> name in store.points
      ensures r.Some? ==> r.value == Point(name)
    {
      store.GetPoint(name)
    }

    /** `clearMap`: empties the store. */
    method ClearMap()
      requires Valid()
      modifies store
      ensures Valid()
      ensures store.points == map[] && store.routes == map[]
    {
      store.ClearMap();
    }
  }

  /** The loop of `getFastestTrip`: the first trip carrying the fastest mark, if any. */
  method FirstFastest(trips: seq<Trip>) returns (found: Option<Trip>)
    ensures found.None? <==> forall k :: 0 <= k < |trips| ==> !trips[k].fastest
    ensures found.Some? ==> exists k :: 0 <= k < |trips| && trips[k] == found.value && found.value.fastest
                                       && forall j :: 0 <= j < k ==> !trips[j].fastest
  {
    for i := 0 to |trips|
      invariant forall k :: 0 <= k < i ==> !trips[k].fastest
    {
      if !trips[i].fastest {
        continue;
      }
      return Some(trips[i]);
    }
    return None;
  }

  /** The loop of `getCheapestTrip`: the first trip carrying the cheapest mark, if any. */
  method FirstCheapest(trips: seq<Trip>) returns (found: Option<Trip>)
    ensures found.None? <==> forall k :: 0 <= k < |trips| ==> !trips[k].cheapest
    ensures found.Some? ==> exists k :: 0 <= k < |trips| && trips[k] == found.value && found.value.cheapest
                                       && forall j :: 0 <= j < k ==> !trips[j].cheapest
  {
    for i := 0 to |trips|
      invariant forall k :: 0 <= k < i ==> !trips[k].cheapest
    {
      if !trips[i].cheapest {
        continue;
      }
      return Some(trips[i]);
    }
    return None;
  }
}
