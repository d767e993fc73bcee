/**
 * `delivery.database.MapStorage`: the in-memory map of points (keyed by name) and
 * directed routes (keyed by their ordered endpoint pair). Every mutator keeps the
 * invariant `Valid()`; rejected operations leave both tables as they were.
 */
module Storage {
  import opened Outcomes
  import opened Entities
  import opened DeliveryErrors

  class MapStorage {
    var points: map<string, Point>
    var routes: map<RouteKey, Route>

    /**
     * Every point is stored under its own name; every route is stored under its own
     * endpoints, both endpoints are stored points, and no route is a self-loop.
     */
    ghost predicate Valid()
      reads this
    {
      && (forall n :: n in points ==> points[n].name == n)
      && (forall k :: k in routes ==>
            && KeyOf(routes[k]) == k
            && k.from.name in points
            && k.to.name in points
            && k.from != k.to)
    }

    constructor ()
      ensures Valid() && points == map[] && routes == map[]
    {
      points := map[];
      routes := map[];
    }

    /** `addPoint`: stores `p` under its name unless that name is already taken. */
    method AddPoint(p: Point) returns (added: bool)
      requires Valid()
      modifies this
      ensures Valid()
      ensures added <==> p.name !in old(points)
      ensures points == if added then old(points)[p.name := p] else old(points)
      ensures routes == old(routes)
    {
      if p.name in points {
        added := false;
      } else {
        points := points[p.name := p];
        added := true;
      }
    }

    /** `getPoints`: a copy of the stored points. */
    function GetPoints(): (s: set<Point>)
      reads this
      requires Valid()
      ensures forall p :: p in s <==> p.name in points
    {
      points.Values
    }

    /** `getPoint`: the stored point with that name, if any. */
    function GetPoint(name: string): (r: Option<Point>)
      reads this
      requires Valid()
      ensures r.Some? <==> Point(name) in GetPoints()
      ensures r.Some? ==> r.value == Point(name)
    {
      if name in points then Some(points[name]) else None
    }

    /** `pointExists(String)`. */
    function PointNameExists(name: string): (r: bool)
      reads this
      requires Valid()
      ensures r <==> GetPoint(name) == Some(Point(name))
    {
      name in points
    }

    /** `pointExists(Point)`: decided by the point's name. */
    function PointExists(p: Point): (r: bool)
      reads this
      requires Valid()
      ensures r <==> p in GetPoints()
    {
      p.name in points
    }

    /** `ensurePointExists`: raises PointNotFound for a point that is not stored. */
    function EnsurePointExists(p: Point): (o: Outcome<Error>)
      reads this
      requires Valid()
      ensures o.Pass? <==> p in GetPoints()
      ensures o.Fail? ==> o.error == PointNotFound(p)
    {
      if !PointExists(p) then Fail(PointNotFound(p)) else Pass
    }

    /** `getRoute`: the route stored under `key`, which then runs between the key's points. */
    function GetRoute(key: RouteKey): (r: Option<Route>)
      reads this
      requires Valid()
      ensures r.Some? <==> key in routes
      ensures r.Some? ==> r.value == routes[key]
      ensures r.Some? ==> KeyOf(r.value) == key && key.from != key.to
      ensures r.Some? ==> key.from in GetPoints() && key.to in GetPoints()
    {
      if key in routes then Some(routes[key]) else None
    }

    /** `routeExists`: whether a route is stored for the ordered pair (from, to). */
    function RouteExists(from: Point, to: Point): (r: bool)
      reads this
      requires Valid()
      ensures r <==> GetRoute(RouteKey(from, to)).Some?
      ensures r ==> from != to && from in GetPoints() && to in GetPoints()
    {
      RouteKey(from, to) in routes
    }

    /**
     * `addRoute`: both endpoints must be stored (the from point is checked first) and
     * must differ; then the route is stored unless its key is already taken, in which
     * case the existing route keeps its time and cost.
     */
    method AddRoute(r: Route) returns (res: Result<bool, Error>)
      requires Valid()
      modifies this
      ensures Valid()
      ensures points == old(points)
      ensures r.from.name !in old(points) ==> res == Failure(PointNotFound(r.from))
      ensures r.from.name in old(points) && r.to.name !in old(points) ==> res == Failure(PointNotFound(r.to))
      ensures r.from.name in old(points) && r.to.name in old(points) && r.from == r.to ==> res == Failure(SelfLoop(r.from, r.to))
      ensures res.Success? <==> r.from.name in old(points) && r.to.name in old(points) && r.from != r.to
      ensures res.Success? ==> (res.value <==> KeyOf(r) !in old(routes))
      ensures routes == if res == Success(true) then old(routes)[KeyOf(r) := r] else old(routes)
    {
      var checkFrom := EnsurePointExists(r.from);
      if checkFrom.Fail? {
        return Failure(checkFrom.error);
      }
      var checkTo := EnsurePointExists(r.to);
      if checkTo.Fail? {
        return Failure(checkTo.error);
      }
      if PointEquals(r.from, PointObj(r.to)) {
        return Failure(SelfLoop(r.from, r.to));
      }
      var key := RouteKey(r.from, r.to);
      if key in routes {
        res := Success(false);
      } else {
        routes := routes[key := r];
        res := Success(true);
      }
    }

    /**
     * `updateRoute`: replaces the route stored under the new route's key; reports
     * false, changing nothing, when no route is stored there.
     */
    method UpdateRoute(r: Route) returns (updated: bool)
      requires Valid()
      modifies this
      ensures Valid()
      ensures updated <==> KeyOf(r) in old(routes)
      ensures routes == if updated then old(routes)[KeyOf(r) := r] else old(routes)
      ensures points == old(points)
    {
      var key := RouteKey(r.from, r.to);
      if key !in routes {
        return false;
      }
      routes := routes[key := r];
      updated := true;
    }

    /** `delete`: removes the route stored under `key`; true iff there was one. */
    method Delete(key: RouteKey) returns (deleted: bool)
      requires Valid()
      modifies this
      ensures Valid()
      ensures deleted <==> key in old(routes)
      ensures routes == old(routes) - {key}
      ensures points == old(points)
    {
      deleted := key in routes;
      routes := routes - {key};
    }

    /** `getRoutes`: a copy of the route table. */
    function GetRoutes(): (m: map<RouteKey, Route>)
      reads this
      requires Valid()
      ensures forall k :: k in m <==> RouteExists(k.from, k.to)
      ensures forall k :: k in m ==> GetRoute(k) == Some(m[k])
    {
      routes
    }

    /** `clearMap`: empties both tables. */
    method ClearMap()
      modifies this
      ensures Valid()
      ensures points == map[] && routes == map[]
    {
      points := map[];
      routes := map[];
    }
  }
}
