/**
 * The unit tests of the controller, as client methods on a fresh store: each
 * method runs the test's calls and its postcondition states the test's assertions.
 * The fixture of the trip tests is loaded the same way and its trip queries are
 * answered from the contracts of the controller alone.
 */
module Scenarios {
  import opened Outcomes
  import opened Entities
  import opened DeliveryErrors
  import opened Trips
  import opened Storage
  import opened PathSearch
  import opened Selection
  import opened TripFactory
  import opened Delivery

  const A: string := "A"
  const B: string := "B"
  const C: string := "C"
  const D: string := "D"
  const E: string := "E"
  const F: string := "F"
  const G: string := "G"
  const H: string := "H"
  const I: string := "I"

  /** The names `loadPoints` adds, in order. */
  const PointNames: seq<string> := [A, B, C, D, E, F, G, H, I]

  /** The point table holding a point for each of `names`. */
  function PointTable(names: seq<string>): (m: map<string, Point>)
    ensures forall n :: n in m <==> n in names
    ensures forall n :: n in m ==> m[n] == Point(n)
  {
    map n | n in names :: Point(n)
  }

  /** A controller over a new, empty store (the state each test starts from, after `clearMap`). */
  method Fresh() returns (c: DeliveryController)
    ensures fresh(c) && fresh(c.store) && c.Valid()
    ensures c.store.points == map[] && c.store.routes == map[]
  {
    var store := new MapStorage();
    c := new DeliveryController(store);
  }

  /** `loadPoints`: adds a point for each name; none of them is rejected. */
  method LoadPoints(c: DeliveryController)
    requires c.Valid() && c.store.points == map[]
    modifies c.store
    ensures c.Valid()
    ensures c.store.points == PointTable(PointNames)
    ensures c.store.routes == old(c.store.routes)
  {
    for i := 0 to |PointNames|
      invariant c.Valid()
      invariant c.store.points == PointTable(PointNames[..i])
      invariant c.store.routes == old(c.store.routes)
    {
      assert PointNames[..i + 1] == PointNames[..i] + [PointNames[i]];
      assert PointNames[i] !in PointNames[..i];
      var _ := c.AddPoint(Point(PointNames[i]));
    }
    assert PointNames[..|PointNames|] == PointNames;
  }

  /** `testAddPoint`: no point at first, two after adding two. */
  method AddPointTest() returns (before: int, after: int)
    ensures before == 0 && after == 2
  {
    var c := Fresh();
    before := |c.GetPoints()|;
    assert c.GetPoints() == {};
    var _ := c.AddPoint(Point(A));
    var _ := c.AddPoint(Point(B));
    assert c.GetPoints() == {Point(A), Point(B)};
    after := |c.GetPoints()|;
  }

  /** `testGetPoint`: an added point is found under its name. */
  method GetPointTest() returns (found: Option<Point>)
    ensures found == Some(Point(A))
  {
    var c := Fresh();
    var _ := c.AddPoint(Point(A));
    found := c.GetPoint(A);
  }

  /** `testAddExistingPoint`: adding the same point twice is rejected the second time. */
  method AddExistingPointTest() returns (first: Outcome<Error>, second: Outcome<Error>)
    ensures first == Pass && second == Fail(ExistingPoint(Point(A)))
  {
    var c := Fresh();
    first := c.AddPoint(Point(A));
    second := c.AddPoint(Point(A));
  }

  /** `testAddRoute`: two added routes, two stored routes. */
  method AddRouteTest() returns (count: int)
    ensures count == 2
  {
    var c := Fresh();
    LoadPoints(c);
    assert A in c.store.points && B in c.store.points && C in c.store.points;
    var ac, cb := Route(Point(A), Point(C), 1, 20), Route(Point(C), Point(B), 1, 12);
    var _ := c.AddRouteNamed(A, C, 1, 20);
    var _ := c.AddRouteNamed(C, B, 1, 12);
    assert c.store.routes == map[KeyOf(ac) := ac, KeyOf(cb) := cb];
    TwoRoutes(ac, cb);
    count := |c.GetRoutes()|;
  }

  /** A table of two routes under different keys holds two routes. */
  lemma TwoRoutes(r1: Route, r2: Route)
    requires KeyOf(r1) != KeyOf(r2)
    ensures map[KeyOf(r1) := r1, KeyOf(r2) := r2].Values == {r1, r2}
    ensures |{r1, r2}| == 2
  {
    var m := map[KeyOf(r1) := r1, KeyOf(r2) := r2];
    assert m[KeyOf(r1)] == r1 && m[KeyOf(r2)] == r2;
    assert r1 != r2;
  }

  /** `testAddExistingRoute`: the second identical route is rejected. */
  method AddExistingRouteTest() returns (first: Result<Route, Error>, second: Result<Route, Error>)
    ensures first == Success(Route(Point(A), Point(C), 1, 20))
    ensures second == Failure(ExistingRoute(Point(A), Point(C)))
  {
    var c := Fresh();
    LoadPoints(c);
    first := c.AddRouteNamed(A, C, 1, 20);
    second := c.AddRouteNamed(A, C, 1, 20);
  }

  /** `testAddRouteWithNonExistingToPoint`: the unknown to point is reported. */
  method AddRouteWithUnknownToPointTest() returns (res: Result<Route, Error>)
    ensures res == Failure(PointNotFound(Point("X")))
  {
    var c := Fresh();
    LoadPoints(c);
    assert "X" !in c.store.points;
    res := c.AddRouteNamed(A, "X", 1, 20);
  }

  /** `testAddRouteWithNonExistingFromPoint`: the unknown from point is reported. */
  method AddRouteWithUnknownFromPointTest() returns (res: Result<Route, Error>)
    ensures res == Failure(PointNotFound(Point("Y")))
  {
    var c := Fresh();
    LoadPoints(c);
    assert "Y" !in c.store.points;
    res := c.AddRouteNamed("Y", C, 1, 20);
  }

  /** `testAddRouteWithNonExistingFromAndToPoint`: with both points unknown, the from point is reported. */
  method AddRouteWithUnknownPointsTest() returns (res: Result<Route, Error>)
    ensures res == Failure(PointNotFound(Point("Z")))
  {
    var c := Fresh();
    LoadPoints(c);
    assert "Z" !in c.store.points;
    res := c.AddRouteNamed("Z", "W", 1, 20);
  }

  /** `testGetRoute`: the route handed back by `addRoute` is the one `getRoute` finds. */
  method GetRouteTest() returns (added: Result<Route, Error>, found: Result<Option<Route>, Error>)
    ensures added.Success? && found == Success(Some(added.value))
  {
    var c := Fresh();
    LoadPoints(c);
    added := c.AddRouteNamed(A, C, 1, 20);
    found := c.GetRoute(A, C);
  }

  /** `testUpdateRoute`: the stored time and cost before and after the update. */
  method UpdateRouteTest() returns (before: Route, after: Route)
    ensures before.time == 1 && before.cost == 20
    ensures after.time == 3 && after.cost == 7
  {
    var c := Fresh();
    LoadPoints(c);
    var _ := c.AddRouteNamed(A, C, 1, 20);
    var r := c.GetRoute(A, C);
    before := r.value.value;
    var _ := c.UpdateRoute(A, C, 3, 7);
    r := c.GetRoute(A, C);
    after := r.value.value;
  }

  /** `testDeleteRoute`: one route after adding it, none after deleting it. */
  method DeleteRouteTest() returns (before: int, after: int)
    ensures before == 1 && after == 0
  {
    var c := Fresh();
    LoadPoints(c);
    var _ := c.AddRouteNamed(A, C, 1, 20);
    assert c.GetRoutes() == {Route(Point(A), Point(C), 1, 20)};
    before := |c.GetRoutes()|;
    var _ := c.DeleteRoute(A, C);
    assert c.GetRoutes() == {};
    after := |c.GetRoutes()|;
  }

  // ---------------------------------------------------------------- the trip fixture

  const AtoC := Route(Point(A), Point(C), 1, 20)
  const AtoH := Route(Point(A), Point(H), 10, 1)
  const AtoE := Route(Point(A), Point(E), 30, 5)
  const CtoB := Route(Point(C), Point(B), 1, 12)
  const DtoF := Route(Point(D), Point(F), 4, 50)
  const EtoD := Route(Point(E), Point(D), 3, 5)
  const FtoI := Route(Point(F), Point(I), 45, 50)
  const FtoG := Route(Point(F), Point(G), 40, 50)
  const GtoB := Route(Point(G), Point(B), 64, 73)
  const HtoE := Route(Point(H), Point(E), 30, 1)
  const ItoB := Route(Point(I), Point(B), 65, 5)

  /** The routes the trip tests add, in order. */
  const FixtureRoutes: seq<Route> := [AtoC, AtoH, AtoE, CtoB, DtoF, EtoD, FtoI, FtoG, GtoB, HtoE, ItoB]

  /** The route table stores exactly the fixture's routes. */
  ghost predicate HoldsFixture(routes: map<RouteKey, Route>)
  {
    forall r :: Stored(routes, r) <==> r in FixtureRoutes
  }

  /** Fixture route `i` joins two different points of `loadPoints`, and its key is not the key of an earlier route. */
  lemma FixtureRouteIsNew(i: nat)
    requires i < |FixtureRoutes|
    ensures FixtureRoutes[i].from.name in PointNames && FixtureRoutes[i].to.name in PointNames
    ensures FixtureRoutes[i].from != FixtureRoutes[i].to
    ensures forall j :: 0 <= j < i ==> KeyOf(FixtureRoutes[j]) != KeyOf(FixtureRoutes[i])
  {
    var fs := FixtureRoutes;
    assert fs[0] == AtoC && fs[1] == AtoH && fs[2] == AtoE && fs[3] == CtoB && fs[4] == DtoF && fs[5] == EtoD;
    assert fs[6] == FtoI && fs[7] == FtoG && fs[8] == GtoB && fs[9] == HtoE && fs[10] == ItoB;
  }

  /** One turn of the route loop: the `i`-th fixture route is new and is added. */
  method AddFixtureRoute(c: DeliveryController, i: nat)
    requires i < |FixtureRoutes|
    requires c.Valid() && c.store.points == PointTable(PointNames)
    requires forall r :: Stored(c.store.routes, r) <==> r in FixtureRoutes[..i]
    modifies c.store
    ensures c.Valid() && c.store.points == PointTable(PointNames)
    ensures forall r :: Stored(c.store.routes, r) <==> r in FixtureRoutes[..i + 1]
  {
    var r := FixtureRoutes[i];
    FixtureRouteIsNew(i);
    assert FixtureRoutes[..i + 1] == FixtureRoutes[..i] + [r];
    if KeyOf(r) in c.store.routes {
      assert Stored(c.store.routes, c.store.routes[KeyOf(r)]);
      assert false;
    }
    var _ := c.AddRoute(r);
  }

  /** The route loop of the trip tests: every fixture route is added, none is rejected. */
  method LoadRoutes(c: DeliveryController)
    requires c.Valid() && c.store.points == PointTable(PointNames) && c.store.routes == map[]
    modifies c.store
    ensures c.Valid() && c.store.points == PointTable(PointNames)
    ensures HoldsFixture(c.store.routes)
  {
    for i := 0 to |FixtureRoutes|
      invariant c.Valid() && c.store.points == PointTable(PointNames)
      invariant forall r :: Stored(c.store.routes, r) <==> r in FixtureRoutes[..i]
    {
      AddFixtureRoute(c, i);
    }
    assert FixtureRoutes[..|FixtureRoutes|] == FixtureRoutes;
  }

  /** The state of the trip tests: the points of `loadPoints` and the fixture's routes. */
  method LoadFixture() returns (c: DeliveryController)
    ensures fresh(c) && fresh(c.store) && c.Valid()
    ensures c.store.points == PointTable(PointNames) && HoldsFixture(c.store.routes)
  {
    c := Fresh();
    LoadPoints(c);
    LoadRoutes(c);
  }

  /** The two trip paths from E to B: through I and through G. */
  const ViaI: seq<Route> := [EtoD, DtoF, FtoI, ItoB]
  const ViaG: seq<Route> := [EtoD, DtoF, FtoG, GtoB]

  /** The five trip paths of the fixture from A to B. */
  const PathsFromAToB: set<seq<Route>> :=
    {[AtoC, CtoB], [AtoE] + ViaI, [AtoE] + ViaG, [AtoH, HtoE] + ViaI, [AtoH, HtoE] + ViaG}

  /** After its first `k` routes, a simple path is a simple path from where those routes end. */
  lemma SimpleTail(routes: map<RouteKey, Route>, from: Point, to: Point, p: seq<Route>, k: nat)
    requires IsSimplePath(routes, from, to, p) && 0 < k < |p|
    ensures IsSimplePath(routes, p[k - 1].to, to, p[k..])
  {
    var q := p[k..];
    forall i | 0 <= i < |q| ensures q[i].to != p[k - 1].to {
      assert q[i] == p[k + i];
    }
    forall i | 0 <= i < |q| - 1 ensures q[i].to == q[i + 1].from {
      assert q[i] == p[k + i] && q[i + 1] == p[k + i + 1];
    }
    forall i, j | 0 <= i < j < |q| ensures q[i].to != q[j].to {
      assert q[i] == p[k + i] && q[j] == p[k + j];
    }
  }

  /** A stored route into the start of a simple path that does not come back to the route's own start extends the path. */
  lemma SimpleCons(routes: map<RouteKey, Route>, from: Point, to: Point, e: Route, q: seq<Route>)
    requires Stored(routes, e) && e.from == from && e.to != from
    requires IsSimplePath(routes, e.to, to, q)
    requires forall i :: 0 <= i < |q| ==> q[i].to != from
    ensures IsSimplePath(routes, from, to, [e] + q)
  {
    var p := [e] + q;
    forall i | 0 < i < |p| ensures p[i] == q[i - 1] {
    }
  }

  /** No stored route of the fixture leaves B, so a simple path passes B only at its end. */
  lemma BIsADeadEnd(routes: map<RouteKey, Route>, from: Point, to: Point, p: seq<Route>)
    requires HoldsFixture(routes) && IsSimplePath(routes, from, to, p)
    ensures forall i :: 0 <= i < |p| - 1 ==> p[i].to != Point(B)
  {
    forall i | 0 <= i < |p| - 1 ensures p[i].to != Point(B) {
      assert Stored(routes, p[i + 1]);
    }
  }

  /** The two trip paths from E to B are trip paths of the fixture. */
  lemma TripPathsFromEToBExist(routes: map<RouteKey, Route>)
    requires HoldsFixture(routes)
    ensures IsTripPath(routes, Point(E), Point(B), ViaI)
    ensures IsTripPath(routes, Point(E), Point(B), ViaG)
  {
    assert Stored(routes, EtoD) && Stored(routes, DtoF) && Stored(routes, FtoI);
    assert Stored(routes, ItoB) && Stored(routes, FtoG) && Stored(routes, GtoB);
  }

  /** Every simple path of the fixture from E to B goes through I or through G. */
  lemma SimplePathsFromE(routes: map<RouteKey, Route>, p: seq<Route>)
    requires HoldsFixture(routes)
    ensures IsSimplePath(routes, Point(E), Point(B), p) ==> p == ViaI || p == ViaG
  {
    if IsSimplePath(routes, Point(E), Point(B), p) {
      assert Stored(routes, p[0]);
      assert p[0] == EtoD;
      assert |p| >= 2;
      assert Stored(routes, p[1]);
      assert p[1] == DtoF;
      assert |p| >= 3;
      assert Stored(routes, p[2]);
      assert p[2] == FtoI || p[2] == FtoG;
      assert |p| >= 4;
      assert Stored(routes, p[3]);
      assert p[3] == ItoB || p[3] == GtoB;
      assert p[3].to == p[|p| - 1].to;
      assert |p| == 4;
    }
  }

  /** The only simple path of the fixture from C to B is the route between them. */
  lemma SimplePathsFromC(routes: map<RouteKey, Route>, p: seq<Route>)
    requires HoldsFixture(routes)
    ensures IsSimplePath(routes, Point(C), Point(B), p) ==> p == [CtoB]
  {
    if IsSimplePath(routes, Point(C), Point(B), p) {
      assert Stored(routes, p[0]);
      assert p[0] == CtoB;
      assert p[0].to == p[|p| - 1].to;
    }
  }

  /** Every simple path of the fixture from H to B goes to E first, then through I or through G. */
  lemma SimplePathsFromH(routes: map<RouteKey, Route>, p: seq<Route>)
    requires HoldsFixture(routes)
    ensures IsSimplePath(routes, Point(H), Point(B), p) ==> p == [HtoE] + ViaI || p == [HtoE] + ViaG
  {
    if IsSimplePath(routes, Point(H), Point(B), p) {
      assert Stored(routes, p[0]);
      assert p[0] == HtoE;
      SimpleTail(routes, Point(H), Point(B), p, 1);
      SimplePathsFromE(routes, p[1..]);
      assert p == [p[0]] + p[1..];
    }
  }

  /** Every trip path of the fixture from E to B goes through I or through G. */
  lemma TripPathsFromEToBAreKnown(routes: map<RouteKey, Route>, p: seq<Route>)
    requires HoldsFixture(routes)
    requires IsTripPath(routes, Point(E), Point(B), p)
    ensures p == ViaI || p == ViaG
  {
    SimplePathsFromE(routes, p);
  }

  /** The one trip path of the fixture from A to E goes through H; the direct route is a single hop. */
  lemma TripPathsFromAToE(routes: map<RouteKey, Route>, p: seq<Route>)
    requires HoldsFixture(routes)
    ensures IsTripPath(routes, Point(A), Point(E), p) <==> p == [AtoH, HtoE]
  {
    assert Stored(routes, AtoH) && Stored(routes, HtoE);
    if IsTripPath(routes, Point(A), Point(E), p) {
      BIsADeadEnd(routes, Point(A), Point(E), p);
      assert Stored(routes, p[0]) && Stored(routes, p[1]);
      assert p[0].to != p[|p| - 1].to;
      assert p[0] != AtoC;
      assert p[0] == AtoH;
      assert p[1] == HtoE;
      assert p[1].to == p[|p| - 1].to;
      assert |p| == 2;
    }
  }

  /** Every simple path of the fixture from A to B is one of the five. */
  lemma SimplePathsFromAToBAreKnown(routes: map<RouteKey, Route>, p: seq<Route>)
    requires HoldsFixture(routes)
    requires IsSimplePath(routes, Point(A), Point(B), p)
    ensures p in PathsFromAToB
  {
    assert Stored(routes, p[0]);
    SimpleTail(routes, Point(A), Point(B), p, 1);
    assert p == [p[0]] + p[1..];
    if p[0] == AtoC {
      SimplePathsFromC(routes, p[1..]);
      assert p == [AtoC, CtoB];
    } else if p[0] == AtoE {
      SimplePathsFromE(routes, p[1..]);
    } else {
      assert p[0] == AtoH;
      SimplePathsFromH(routes, p[1..]);
      assert [AtoH] + ([HtoE] + ViaI) == [AtoH, HtoE] + ViaI;
      assert [AtoH] + ([HtoE] + ViaG) == [AtoH, HtoE] + ViaG;
    }
  }

  /** The two trip paths from H to B go to E first. */
  lemma TripPathsFromHToBExist(routes: map<RouteKey, Route>)
    requires HoldsFixture(routes)
    ensures IsSimplePath(routes, Point(H), Point(B), [HtoE] + ViaI)
    ensures IsSimplePath(routes, Point(H), Point(B), [HtoE] + ViaG)
  {
    TripPathsFromEToBExist(routes);
    assert Stored(routes, HtoE);
    SimpleCons(routes, Point(H), Point(B), HtoE, ViaI);
    SimpleCons(routes, Point(H), Point(B), HtoE, ViaG);
  }

  /** The three trip paths from A to B that do not pass through H. */
  lemma DirectPathsFromAToB(routes: map<RouteKey, Route>)
    requires HoldsFixture(routes)
    ensures IsTripPath(routes, Point(A), Point(B), [AtoC, CtoB])
    ensures IsTripPath(routes, Point(A), Point(B), [AtoE] + ViaI)
    ensures IsTripPath(routes, Point(A), Point(B), [AtoE] + ViaG)
  {
    TripPathsFromEToBExist(routes);
    assert Stored(routes, AtoC) && Stored(routes, CtoB) && Stored(routes, AtoE);
    SimpleCons(routes, Point(A), Point(B), AtoE, ViaI);
    SimpleCons(routes, Point(A), Point(B), AtoE, ViaG);
  }

  /** The two trip paths from A to B through H. */
  lemma PathsFromAThroughHToB(routes: map<RouteKey, Route>)
    requires HoldsFixture(routes)
    ensures IsTripPath(routes, Point(A), Point(B), [AtoH, HtoE] + ViaI)
    ensures IsTripPath(routes, Point(A), Point(B), [AtoH, HtoE] + ViaG)
  {
    TripPathsFromHToBExist(routes);
    assert Stored(routes, AtoH);
    SimpleCons(routes, Point(A), Point(B), AtoH, [HtoE] + ViaI);
    SimpleCons(routes, Point(A), Point(B), AtoH, [HtoE] + ViaG);
    assert [AtoH] + ([HtoE] + ViaI) == [AtoH, HtoE] + ViaI;
    assert [AtoH] + ([HtoE] + ViaG) == [AtoH, HtoE] + ViaG;
  }

  /** The five paths are five different paths. */
  lemma FivePathsFromAToB()
    ensures |PathsFromAToB| == 5
  {
    var p1, p2, p3, p4, p5 := [AtoC, CtoB], [AtoE] + ViaI, [AtoE] + ViaG, [AtoH, HtoE] + ViaI, [AtoH, HtoE] + ViaG;
    assert |p1| == 2 && |p2| == 5 && |p3| == 5 && |p4| == 6 && |p5| == 6;
    assert p2[3] != p3[3] && p4[4] != p5[4];
    assert p2 != p3 && p4 != p5;
  }

  /** A sequence without repetitions has as many elements as it has distinct elements. */
  lemma {:induction false} NoDupsCount<T>(s: seq<T>)
    requires NoDups(s)
    ensures |set x | x in s| == |s|
  {
    if s != [] {
      var init := s[..|s| - 1];
      assert NoDups(init);
      NoDupsCount(init);
      assert s == init + [s[|s| - 1]];
      assert s[|s| - 1] !in init;
      assert (set x | x in s) == (set x | x in init) + {s[|s| - 1]};
    }
  }

  /** The totals of a four-route path are the sums of its four routes' values. */
  lemma TotalsOfFour(p: seq<Route>)
    requires |p| == 4
    ensures SumTime(p) == p[0].time + p[1].time + p[2].time + p[3].time
    ensures SumCost(p) == p[0].cost + p[1].cost + p[2].cost + p[3].cost
  {
    assert p[..1][..0] == [] && p[..2][..1] == p[..1] && p[..3][..2] == p[..2];
    assert SumTime(p[..1]) == p[0].time && SumCost(p[..1]) == p[0].cost;
    assert SumTime(p[..2]) == SumTime(p[..1]) + p[1].time && SumCost(p[..2]) == SumCost(p[..1]) + p[1].cost;
    assert SumTime(p[..3]) == SumTime(p[..2]) + p[2].time && SumCost(p[..3]) == SumCost(p[..2]) + p[2].cost;
  }

  /** Of the trip paths from E to B, only the one through G has the least total time. */
  lemma FastestFromEToB(routes: map<RouteKey, Route>, p: seq<Route>)
    requires HoldsFixture(routes) && IsTripPath(routes, Point(E), Point(B), p)
    requires forall q :: IsTripPath(routes, Point(E), Point(B), q) ==> SumTime(p) <= SumTime(q)
    ensures p == ViaG
  {
    TripPathsFromEToBExist(routes);
    TripPathsFromEToBAreKnown(routes, p);
    TotalsOfFour(ViaI);
    TotalsOfFour(ViaG);
  }

  /** Of the trip paths from E to B, only the one through I has the least total cost. */
  lemma CheapestFromEToB(routes: map<RouteKey, Route>, p: seq<Route>)
    requires HoldsFixture(routes) && IsTripPath(routes, Point(E), Point(B), p)
    requires forall q :: IsTripPath(routes, Point(E), Point(B), q) ==> SumCost(p) <= SumCost(q)
    ensures p == ViaI
  {
    TripPathsFromEToBExist(routes);
    TripPathsFromEToBAreKnown(routes, p);
    TotalsOfFour(ViaI);
    TotalsOfFour(ViaG);
  }

  /** `TestGetFastestTrip`: the fastest trip from E to B runs through G. */
  method GetFastestTripTest() returns (routes: seq<Route>)
    ensures routes == ViaG
  {
    var c := LoadFixture();
    TripPathsFromEToBExist(c.store.routes);
    var res, discovered := c.GetFastestTrip(E, B);
    var f := Run(TotalsOf(discovered)).minTimeIndex;
    FastestFromEToB(c.store.routes, discovered[f]);
    routes := res.value.value.routes;
  }

  /** `TestGetCheapestTrip`: the cheapest trip from E to B runs through I. */
  method GetCheapestTripTest() returns (routes: seq<Route>)
    ensures routes == ViaI
  {
    var c := LoadFixture();
    TripPathsFromEToBExist(c.store.routes);
    var res, discovered := c.GetCheapestTrip(E, B);
    var k := Run(TotalsOf(discovered)).minCostIndex;
    CheapestFromEToB(c.store.routes, discovered[k]);
    routes := res.value.value.routes;
  }

  /** A query from A to B that lists each trip path once lists five paths. */
  lemma TripsFromAToB(routes: map<RouteKey, Route>, discovered: seq<seq<Route>>)
    requires HoldsFixture(routes)
    requires forall p :: p in discovered <==> IsTripPath(routes, Point(A), Point(B), p)
    requires NoDups(discovered)
    ensures |discovered| == 5
  {
    DirectPathsFromAToB(routes);
    PathsFromAThroughHToB(routes);
    FivePathsFromAToB();
    forall p | p in discovered ensures p in PathsFromAToB {
      SimplePathsFromAToBAreKnown(routes, p);
    }
    assert (set p | p in discovered) == PathsFromAToB;
    NoDupsCount(discovered);
  }

  /** A query from A to E that lists each trip path once lists one path. */
  lemma TripsFromAToE(routes: map<RouteKey, Route>, discovered: seq<seq<Route>>)
    requires HoldsFixture(routes)
    requires forall p :: p in discovered <==> IsTripPath(routes, Point(A), Point(E), p)
    requires NoDups(discovered)
    ensures |discovered| == 1
  {
    forall p ensures p in discovered <==> p == [AtoH, HtoE] {
      TripPathsFromAToE(routes, p);
    }
    assert (set p | p in discovered) == {[AtoH, HtoE]};
    NoDupsCount(discovered);
  }

  /** `TestGetAllTripRoutes`: five trips from A to B, and one from A to E (the direct route is not a trip). */
  method GetAllTripRoutesTest() returns (fromAToB: int, fromAToE: int)
    ensures fromAToB == 5 && fromAToE == 1
  {
    var c := LoadFixture();
    var res, discovered := c.GetAllTripRoutes(A, B);
    TripsFromAToB(c.store.routes, discovered);
    fromAToB := |res.value|;
    res, discovered := c.GetAllTripRoutes(A, E);
    TripsFromAToE(c.store.routes, discovered);
    fromAToE := |res.value|;
  }
}
