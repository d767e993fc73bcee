# Delivery routes: a verified model

The delivery service keeps a map of named **points** and directed, weighted **routes**
between them. Each route has a time and a cost. It answers **trip queries** from one
point to another. A trip is a simple directed path of at least two routes, with its
total time and total cost. One trip of the answer is marked *fastest* and one is marked
*cheapest*. This project models the service's core in Dafny and proves what that core
promises:

- the in-memory store (`MapStorage`) with its two tables and their mutation rules;
- the controller (`DeliveryController`) that checks names and turns store answers into errors;
- the trip factory, which enumerates every simple path over a snapshot of the store,
  drops the single-hop paths, totals the rest into `Trip` objects and marks the fastest
  and the cheapest of them;
- the value classes `Point`, `Route` and `RouteKey`, and the `Trip` class;
- the controller's unit tests, as client methods whose postconditions are the tests'
  assertions.

Module layout:

| file | module | contents |
|---|---|---|
| outcomes.dfy | `Outcomes` | `Option` (Java `null`), `Result` and `Outcome` (a thrown exception) |
| entities.dfy | `Entities` | `Point`, `RouteKey`, `Route` as datatypes; Java `equals`/`hashCode` |
| errors.dfy | `DeliveryErrors` | the exceptions of the service as one `Error` datatype |
| trip.dfy | `Trips` | class `Trip` with its mutable total time and its two marks |
| map_storage.dfy | `Storage` | class `MapStorage` over `map`s, with its invariant `Valid()` |
| path_search.dfy | `PathSearch` | the all-simple-paths search, proved sound, complete and repetition-free |
| selection.dfy | `Selection` | the running-minimum selection as written, and what it selects |
| trip_factory.dfy | `TripFactory` | `getAllTripRoutes` as imperative loops proved against the two above |
| delivery_controller.dfy | `Delivery` | class `DeliveryController` over a `MapStorage` |
| scenarios.dfy | `Scenarios` | the unit tests and their fixture |

Exceptions are values. A Java method that throws becomes a method that returns
`Failure(e)` or `Fail(e)`. A Java `null` result becomes `None`.

The graph library's `AllDirectedPaths.getAllPaths(from, to, true, null)` is replaced by
an explicit depth-first search, `PathSearch.AllPaths`, over the routes listed in hash
table order. `PathSearch.AllPathsExactlyOnce` proves that, whatever that order is, the
search returns every simple path of stored routes exactly once, and nothing else. That
is the contract the factory relies on. The order in which the paths are discovered is the
search's own. That order decides which trip is marked fastest among trips of equal total
time, and which is marked cheapest among trips of equal total cost.

### Behaviour of the code worth noting

- **Time tie-break.** The selection loop (TripFactory.java:104) lets an equally fast
  trip take over when its cost is below `minCost`. `minCost` is the least cost of *all*
  earlier trips, not the cost of the current fastest trip. `Selection.IsFastestAsWritten`
  states the trip the loop really marks. `Selection.TimeTieBreakUsesEarlierMinimumCost`
  gives three trips where the later, equally fast and cheaper trip does not win.
- **Cost tie-break.** The test `totalTime < minTime` (TripFactory.java:108) runs after
  `minTime` has already been lowered to at most `totalTime`, so it never holds. The
  cheapest trip is therefore the earliest trip of minimal cost, whatever its time
  (`Selection.CostTieBreakNeverFires`, `Selection.CostTieBreakIgnoresTime`).
- **Unknown point in a trip query.** The Javadoc of `DeliveryController.getAllTripRoutes`
  (DeliveryController.java:97-98) promises `PointNotFoundException` when there is no point
  named `from` or `to`. The code (DeliveryController.java:100-109) looks the names up first
  and passes the possibly-`null` points to `ensurePointExists`. That method calls `getName()`
  on them, so an unknown name ends in a null dereference instead (`Error.NullDereference`).
  `getFastestTrip` and `getCheapestTrip` inherit this.

## Model

| member | source | states |
|---|---|---|
| Entities.CopyPoint | DELIVERY_SRV/java/src/delivery/entities/Point.java:34-36 | the copy of a point is equal to it |
| Entities.PointEquals | DELIVERY_SRV/java/src/delivery/entities/Point.java:65-80 | a point equals exactly the point objects with its name; never `null` or another class |
| Entities.PointEqualsIsReflexive | DELIVERY_SRV/java/src/delivery/entities/Point.java:65-80 | `equals` is reflexive |
| Entities.PointEqualsIsSymmetric | DELIVERY_SRV/java/src/delivery/entities/Point.java:65-80 | `equals` is symmetric |
| Entities.PointEqualsRejectsOthers | DELIVERY_SRV/java/src/delivery/entities/Point.java:67-72 | `equals` is false for `null`, for a route key and for any other object |
| Entities.EqualPointsHashEqually | DELIVERY_SRV/java/src/delivery/entities/Point.java:52-58 | equal points have equal hash codes |
| Entities.KeyEquals | DELIVERY_SRV/java/src/delivery/entities/RouteKey.java:57-67 | a key equals exactly the keys with equal from and to points |
| Entities.KeyEqualityIsOrdered | DELIVERY_SRV/java/src/delivery/entities/RouteKey.java:57-67 | the keys A->B and B->A are equal only when A and B are the same point |
| Entities.KeyEqualsRejectsOthers | DELIVERY_SRV/java/src/delivery/entities/RouteKey.java:59-64 | a key equals neither `null` nor a point nor any other object |
| Entities.EqualKeysHashEqually | DELIVERY_SRV/java/src/delivery/entities/RouteKey.java:74-77 | equal keys have equal hash codes |
| Entities.CopyRoute | DELIVERY_SRV/java/src/delivery/entities/Route.java:39-45 | the copy has the same endpoints, time and cost, and an equal key |
| Trips.Trip.constructor | DELIVERY_SRV/java/src/delivery/route/entities/Trip.java:56-63 | a new trip holds its arguments and carries neither mark |
| Trips.Trip.SetTotalTime | DELIVERY_SRV/java/src/delivery/route/entities/Trip.java:120-123 | sets the total time and keeps both marks |
| Trips.Trip.SetFastest | DELIVERY_SRV/java/src/delivery/route/entities/Trip.java:156-159 | sets the fastest mark and keeps the cheapest mark and the time |
| Trips.Trip.SetCheapest | DELIVERY_SRV/java/src/delivery/route/entities/Trip.java:138-141 | sets the cheapest mark and keeps the fastest mark and the time |
| Storage.MapStorage.constructor | DELIVERY_SRV/java/src/delivery/database/MapStorage.java:42-53 | a new store is empty and valid |
| Storage.MapStorage.AddPoint | DELIVERY_SRV/java/src/delivery/database/MapStorage.java:89-99 | adds the point exactly when its name is free, keeping the invariant and the routes |
| Storage.MapStorage.GetPoints | DELIVERY_SRV/java/src/delivery/database/MapStorage.java:111-116 | the set holds exactly the points whose names are stored |
| Storage.MapStorage.GetPoint | DELIVERY_SRV/java/src/delivery/database/MapStorage.java:128-132 | a point comes back exactly when one of that name is stored, and it is that point |
| Storage.MapStorage.PointNameExists | DELIVERY_SRV/java/src/delivery/database/MapStorage.java:146-150 | true exactly when `getPoint` finds the name |
| Storage.MapStorage.PointExists | DELIVERY_SRV/java/src/delivery/database/MapStorage.java:266-270 | true exactly when the point is among `getPoints` |
| Storage.MapStorage.EnsurePointExists | DELIVERY_SRV/java/src/delivery/database/MapStorage.java:249-254 | passes exactly for a stored point, otherwise PointNotFound for that point |
| Storage.MapStorage.GetRoute | DELIVERY_SRV/java/src/delivery/database/MapStorage.java:165-173 | a route comes back exactly when the key is stored, and it is the route stored under that key; it runs between two different stored points |
| Storage.MapStorage.RouteExists | DELIVERY_SRV/java/src/delivery/database/MapStorage.java:189-193 | true exactly when `getRoute` finds the key; then both points are stored and differ |
| Storage.MapStorage.AddRoute | DELIVERY_SRV/java/src/delivery/database/MapStorage.java:213-234 | PointNotFound for the from point, then the to point; a self-loop is rejected; otherwise true and stored exactly when the key is free; every stored route stays under its own ordered (from, to) key |
| Storage.MapStorage.UpdateRoute | DELIVERY_SRV/java/src/delivery/database/MapStorage.java:285-296 | replaces the route exactly when its key is stored, otherwise false and nothing changes |
| Storage.MapStorage.Delete | DELIVERY_SRV/java/src/delivery/database/MapStorage.java:308-312 | removes the key; true exactly when it was stored |
| Storage.MapStorage.GetRoutes | DELIVERY_SRV/java/src/delivery/database/MapStorage.java:324-329 | the copy has exactly the stored keys, each with the route `getRoute` gives |
| Storage.MapStorage.ClearMap | DELIVERY_SRV/java/src/delivery/database/MapStorage.java:338-342 | both tables become empty |
| PathSearch.Prepend | DELIVERY_SRV/java/src/delivery/route/TripFactory.java:67-68 | each path keeps its place and gains the route in front |
| PathSearch.ExploreSound | DELIVERY_SRV/java/src/delivery/route/TripFactory.java:67-68 | every path the search returns is a chain of listed routes from the current point to the destination that revisits no point |
| PathSearch.ExploreEdgesSound | DELIVERY_SRV/java/src/delivery/route/TripFactory.java:67-68 | the same for the paths that start with the routes from index `i` on |
| PathSearch.BranchSound | DELIVERY_SRV/java/src/delivery/route/TripFactory.java:67-68 | the same for the paths that start with one given route |
| PathSearch.BranchInExploreEdges | DELIVERY_SRV/java/src/delivery/route/TripFactory.java:67-68 | the paths through a later route are among the paths the search finds from an earlier index |
| PathSearch.PathFromTail | DELIVERY_SRV/java/src/delivery/route/TripFactory.java:67-68 | the rest of such a path, after its first route, is such a path from that route's target |
| PathSearch.ExploreComplete | DELIVERY_SRV/java/src/delivery/route/TripFactory.java:67-68 | every such path is found by the search |
| PathSearch.ExploreEdgesStartAt | DELIVERY_SRV/java/src/delivery/route/TripFactory.java:67-68 | every path found from index `i` starts with a route at index `i` or later |
| PathSearch.PrependNoDups | DELIVERY_SRV/java/src/delivery/route/TripFactory.java:67-68 | putting a route in front keeps distinct paths distinct |
| PathSearch.ExploreNoDups | DELIVERY_SRV/java/src/delivery/route/TripFactory.java:67-68 | over distinct routes the search returns no path twice |
| PathSearch.ExploreEdgesNoDups | DELIVERY_SRV/java/src/delivery/route/TripFactory.java:67-68 | the same from index `i` on |
| PathSearch.BranchNoDups | DELIVERY_SRV/java/src/delivery/route/TripFactory.java:67-68 | the same for the paths through one route |
| PathSearch.AllPathsExactlyOnce | DELIVERY_SRV/java/src/delivery/route/TripFactory.java:56-68 | in any listing order of the table, the search returns exactly the simple paths of stored routes from `from` to `to`, each once |
| PathSearch.NoRoutesNoPaths | DELIVERY_SRV/java/src/delivery/route/TripFactory.java:64 | without routes there is no path |
| Selection.CostTieBreakNeverFires | DELIVERY_SRV/java/src/delivery/route/TripFactory.java:104-111 | after the time comparison the trip is never faster than `minTime`, so the cost comparison reduces to `totalCost < minCost` |
| Selection.RunSelects | DELIVERY_SRV/java/src/delivery/route/TripFactory.java:76-112 | no index for no trips; otherwise the loop's indices are the fastest and the cheapest trip as characterised, and `minTime` and `minCost` are their totals |
| Selection.FastestAsWrittenIsUnique | DELIVERY_SRV/java/src/delivery/route/TripFactory.java:104-107 | at most one trip fits the fastest characterisation |
| Selection.CheapestAsWrittenIsUnique | DELIVERY_SRV/java/src/delivery/route/TripFactory.java:108-111 | at most one trip fits the cheapest characterisation |
| Selection.TimeTieBreakUsesEarlierMinimumCost | DELIVERY_SRV/java/src/delivery/route/TripFactory.java:104-107 | an equally fast, cheaper later trip does not win when an earlier, slower trip is cheaper still |
| Selection.CostTieBreakIgnoresTime | DELIVERY_SRV/java/src/delivery/route/TripFactory.java:108-111 | an equally cheap, faster later trip does not win |
| TripFactory.QualifyingMembers | DELIVERY_SRV/java/src/delivery/route/TripFactory.java:82-86 | a path is kept exactly when it is one of the paths and has at least two routes |
| TripFactory.QualifyingPrefix | DELIVERY_SRV/java/src/delivery/route/TripFactory.java:82-88 | each loop turn adds its path to the kept ones exactly when it has at least two routes |
| TripFactory.QualifyingNoDups | DELIVERY_SRV/java/src/delivery/route/TripFactory.java:82-86 | dropping paths keeps the remaining ones distinct |
| TripFactory.RunExtends | DELIVERY_SRV/java/src/delivery/route/TripFactory.java:82-112 | one more kept path is one more step of the selection |
| TripFactory.TotalPath | DELIVERY_SRV/java/src/delivery/route/TripFactory.java:90-99 | the trip's routes are the path's routes, and the totals are the sums of their times and costs |
| TripFactory.FastestIsMinimal | DELIVERY_SRV/java/src/delivery/route/TripFactory.java:104-107 | with no trip path no index is chosen; otherwise the chosen path's total time is at most that of every trip path |
| TripFactory.CheapestIsMinimal | DELIVERY_SRV/java/src/delivery/route/TripFactory.java:108-111 | with no trip path no index is chosen; otherwise the chosen path's total cost is at most that of every trip path |
| TripFactory.ListRoutes | DELIVERY_SRV/java/src/delivery/route/TripFactory.java:56-60 | lists every stored route exactly once |
| TripFactory.GetAllTripRoutes | DELIVERY_SRV/java/src/delivery/route/TripFactory.java:44-126 | the trips are new, distinct objects, one per simple path of at least two stored routes, each path once; exactly the selected trips carry the marks |
| TripFactory.SelectTrips | DELIVERY_SRV/java/src/delivery/route/TripFactory.java:76-121 | one new trip per kept path, in order, built from that path; the fastest and cheapest marks sit exactly on the selection's indices |
| TripFactory.BuildTrips | DELIVERY_SRV/java/src/delivery/route/TripFactory.java:76-112 | the loop keeps the paths of at least two routes, builds one unmarked trip each and ends with the selection's indices |
| TripFactory.AppendTrip | DELIVERY_SRV/java/src/delivery/route/TripFactory.java:90-101 | appends one new unmarked trip built from the path, with its totals |
| TripFactory.Compare | DELIVERY_SRV/java/src/delivery/route/TripFactory.java:103-111 | the two comparisons perform one step of the selection |
| TripFactory.AppendBuilt | DELIVERY_SRV/java/src/delivery/route/TripFactory.java:101 | a new unmarked trip of the next path extends the trips built so far |
| TripFactory.MarkSelected | DELIVERY_SRV/java/src/delivery/route/TripFactory.java:114-121 | exactly the trip at each index that is not -1 gets its mark; the times do not change |
| Delivery.DeliveryController.constructor | DELIVERY_SRV/java/src/delivery/route/DeliveryController.java:45-56 | the controller works on the given valid store |
| Delivery.DeliveryController.GetRoutes | DELIVERY_SRV/java/src/delivery/route/DeliveryController.java:76-79 | exactly the stored routes |
| Delivery.DeliveryController.GetAllTripRoutes | DELIVERY_SRV/java/src/delivery/route/DeliveryController.java:100-109 | fails, on a null point, exactly when a name is unknown; otherwise one new trip per trip path, each once, with the selection's marks |
| Delivery.DeliveryController.GetFastestTrip | DELIVERY_SRV/java/src/delivery/route/DeliveryController.java:115-127 | no trip exactly when there is no trip path; otherwise the marked trip, built from a path whose total time no trip path beats |
| Delivery.DeliveryController.GetCheapestTrip | DELIVERY_SRV/java/src/delivery/route/DeliveryController.java:133-146 | no trip exactly when there is no trip path; otherwise the marked trip, built from a path whose total cost no trip path beats |
| Delivery.DeliveryController.AddPoint | DELIVERY_SRV/java/src/delivery/route/DeliveryController.java:163-170 | ExistingPoint exactly when the name is taken; otherwise the point is stored |
| Delivery.DeliveryController.AddRouteNamed | DELIVERY_SRV/java/src/delivery/route/DeliveryController.java:196-202 | PointNotFound (from, then to), self-loop, ExistingRoute, or the new route is stored and returned |
| Delivery.DeliveryController.AddRoute | DELIVERY_SRV/java/src/delivery/route/DeliveryController.java:220-228 | the store's errors pass through; a taken key is ExistingRoute; otherwise the route is stored and returned |
| Delivery.DeliveryController.GetRoute | DELIVERY_SRV/java/src/delivery/route/DeliveryController.java:239-247 | PointNotFound (from, then to); otherwise the route stored between the two points, if any |
| Delivery.DeliveryController.UpdateRoute | DELIVERY_SRV/java/src/delivery/route/DeliveryController.java:268-277 | RouteNotFound exactly when no route runs between the names; otherwise its time and cost are replaced |
| Delivery.DeliveryController.EnsureRouteExists | DELIVERY_SRV/java/src/delivery/route/DeliveryController.java:283-289 | passes exactly when a route runs between the names, otherwise RouteNotFound |
| Delivery.DeliveryController.DeleteRoute | DELIVERY_SRV/java/src/delivery/route/DeliveryController.java:305-313 | RouteNotFound exactly when no route runs between the names; otherwise that route, and only it, is removed |
| Delivery.DeliveryController.BuildRouteKey | DELIVERY_SRV/java/src/delivery/route/DeliveryController.java:322-328 | the key of the stored points with the two names |
| Delivery.DeliveryController.GetPoints | DELIVERY_SRV/java/src/delivery/route/DeliveryController.java:338-341 | exactly the stored points |
| Delivery.DeliveryController.GetPoint | DELIVERY_SRV/java/src/delivery/route/DeliveryController.java:351-354 | the point of that name exactly when it is stored |
| Delivery.DeliveryController.ClearMap | DELIVERY_SRV/java/src/delivery/route/DeliveryController.java:363-367 | the store becomes empty |
| Delivery.FirstFastest | DELIVERY_SRV/java/src/delivery/route/DeliveryController.java:119-126 | none exactly when no trip is marked fastest; otherwise the first marked trip |
| Delivery.FirstCheapest | DELIVERY_SRV/java/src/delivery/route/DeliveryController.java:137-145 | none exactly when no trip is marked cheapest; otherwise the first marked trip |
| Scenarios.Fresh | DELIVERY_SRV/java/test/delivery/InitTest.java:43-48 | each test starts from an empty, valid store |
| Scenarios.LoadPoints | DELIVERY_SRV/java/test/delivery/InitTest.java:57-64 | after the loop the nine points A to I are stored |
| Scenarios.AddPointTest | DELIVERY_SRV/java/test/delivery/TestPointController.java:25-38 | no point before, two after adding two |
| Scenarios.GetPointTest | DELIVERY_SRV/java/test/delivery/TestPointController.java:44-52 | an added point is found by name |
| Scenarios.AddExistingPointTest | DELIVERY_SRV/java/test/delivery/TestPointController.java:58-66 | adding the same point twice fails the second time with ExistingPoint |
| Scenarios.AddRouteTest | DELIVERY_SRV/java/test/delivery/TestRouteController.java:39-47 | two added routes give two stored routes |
| Scenarios.TwoRoutes | DELIVERY_SRV/java/test/delivery/TestRouteController.java:39-47 | a table of two routes under different keys holds two routes |
| Scenarios.AddExistingRouteTest | DELIVERY_SRV/java/test/delivery/TestRouteController.java:53-58 | the second identical route fails with ExistingRoute |
| Scenarios.AddRouteWithUnknownToPointTest | DELIVERY_SRV/java/test/delivery/TestRouteController.java:64-69 | an unknown to point fails with PointNotFound for it |
| Scenarios.AddRouteWithUnknownFromPointTest | DELIVERY_SRV/java/test/delivery/TestRouteController.java:75-79 | an unknown from point fails with PointNotFound for it |
| Scenarios.AddRouteWithUnknownPointsTest | DELIVERY_SRV/java/test/delivery/TestRouteController.java:85-89 | with both points unknown, PointNotFound names the from point |
| Scenarios.GetRouteTest | DELIVERY_SRV/java/test/delivery/TestRouteController.java:95-100 | the route `addRoute` returns is the one `getRoute` finds |
| Scenarios.UpdateRouteTest | DELIVERY_SRV/java/test/delivery/TestRouteController.java:106-122 | time and cost are 1 and 20 before the update and 3 and 7 after it |
| Scenarios.DeleteRouteTest | DELIVERY_SRV/java/test/delivery/TestRouteController.java:128-139 | one route after adding, none after deleting |
| Scenarios.FixtureRouteIsNew | DELIVERY_SRV/java/test/delivery/TestDeliveryController.java:38-43 | each fixture route joins two different loaded points, under a key no earlier fixture route has |
| Scenarios.AddFixtureRoute | DELIVERY_SRV/java/test/delivery/TestDeliveryController.java:45-51 | each fixture route is accepted, so the table holds the routes added so far |
| Scenarios.LoadRoutes | DELIVERY_SRV/java/test/delivery/TestDeliveryController.java:38-51 | after the loop the table holds exactly the eleven fixture routes |
| Scenarios.LoadFixture | DELIVERY_SRV/java/test/delivery/TestDeliveryController.java:32-52 | the nine points and the eleven routes are stored |
| Scenarios.SimpleTail | DELIVERY_SRV/java/test/delivery/TestDeliveryController.java:64-69 | what a simple path has left after its first routes is a simple path |
| Scenarios.SimpleCons | DELIVERY_SRV/java/test/delivery/TestDeliveryController.java:64-69 | a stored route in front of a simple path that avoids the route's start is a simple path |
| Scenarios.BIsADeadEnd | DELIVERY_SRV/java/test/delivery/TestDeliveryController.java:38-43 | no fixture route leaves B, so a simple path reaches B only at its end |
| Scenarios.TripPathsFromEToBExist | DELIVERY_SRV/java/test/delivery/TestDeliveryController.java:94-98 | the paths E-D-F-I-B and E-D-F-G-B are trip paths |
| Scenarios.SimplePathsFromE | DELIVERY_SRV/java/test/delivery/TestDeliveryController.java:94-98 | every simple path from E to B is one of those two |
| Scenarios.SimplePathsFromC | DELIVERY_SRV/java/test/delivery/TestDeliveryController.java:65 | the only simple path from C to B is the route C->B |
| Scenarios.SimplePathsFromH | DELIVERY_SRV/java/test/delivery/TestDeliveryController.java:68-69 | every simple path from H to B is H->E followed by one of the paths from E |
| Scenarios.TripPathsFromEToBAreKnown | DELIVERY_SRV/java/test/delivery/TestDeliveryController.java:94-98 | every trip path from E to B is one of the two |
| Scenarios.TripPathsFromAToE | DELIVERY_SRV/java/test/delivery/TestDeliveryController.java:76-78 | the only trip path from A to E is A-H-E; the direct route is dropped |
| Scenarios.SimplePathsFromAToBAreKnown | DELIVERY_SRV/java/test/delivery/TestDeliveryController.java:64-69 | every simple path from A to B is one of the five listed paths |
| Scenarios.TripPathsFromHToBExist | DELIVERY_SRV/java/test/delivery/TestDeliveryController.java:68-69 | H->E followed by either path from E is a simple path to B |
| Scenarios.DirectPathsFromAToB | DELIVERY_SRV/java/test/delivery/TestDeliveryController.java:65-67 | A-C-B and A-E followed by either path from E are trip paths |
| Scenarios.PathsFromAThroughHToB | DELIVERY_SRV/java/test/delivery/TestDeliveryController.java:68-69 | A-H-E followed by either path from E are trip paths |
| Scenarios.FivePathsFromAToB | DELIVERY_SRV/java/test/delivery/TestDeliveryController.java:64-71 | the five listed paths are five different paths |
| Scenarios.NoDupsCount | DELIVERY_SRV/java/test/delivery/TestDeliveryController.java:71 | a list without repetitions is as long as its set of elements is large |
| Scenarios.TotalsOfFour | DELIVERY_SRV/java/src/delivery/route/TripFactory.java:90-99 | the totals of a four-route path are the sums of its four times and costs |
| Scenarios.FastestFromEToB | DELIVERY_SRV/java/test/delivery/TestDeliveryController.java:94-98 | the trip path from E to B of least total time is the one through G |
| Scenarios.CheapestFromEToB | DELIVERY_SRV/java/test/delivery/TestDeliveryController.java:116-120 | the trip path from E to B of least total cost is the one through I |
| Scenarios.GetFastestTripTest | DELIVERY_SRV/java/test/delivery/TestDeliveryController.java:87-103 | the fastest trip from E to B is E-D-F-G-B |
| Scenarios.GetCheapestTripTest | DELIVERY_SRV/java/test/delivery/TestDeliveryController.java:109-125 | the cheapest trip from E to B is E-D-F-I-B |
| Scenarios.TripsFromAToB | DELIVERY_SRV/java/test/delivery/TestDeliveryController.java:62-71 | a query from A to B that lists each trip path once lists five |
| Scenarios.TripsFromAToE | DELIVERY_SRV/java/test/delivery/TestDeliveryController.java:74-79 | a query from A to E that lists each trip path once lists one |
| Scenarios.GetAllTripRoutesTest | DELIVERY_SRV/java/test/delivery/TestDeliveryController.java:58-81 | five trips from A to B and one from A to E |

## Left out

- Null names and null points are not modelled. Names are plain strings. The one `null` that does arise, the unknown point in a trip query, is `Error.NullDereference`.
- Java's `int` and `long` overflow is not modelled. Times, costs and totals are unbounded integers.
- Entities.StringHash, Entities.PointHash and Entities.KeyHash: the hash codes omit Java's 32-bit wrap-around. They are used only to show that equal values hash equally.
- `toString` of every class, the logging, and the exception messages are left out. Errors carry the offending points or names instead.
- The singleton `getInstance()` and `synchronized` are not modelled. The store is a field of the controller, and the model is sequential.
- The graph library (`DefaultDirectedGraph`, `AllDirectedPaths`) is not part of this model. Its path enumeration is replaced by the depth-first search in `PathSearch`, and its discovery order by the search's order. With `from == to` the library may report a path without routes. The search reports none. Both give no trip, because such paths are dropped anyway.
- `RouteEdge` is not part of this model. It wraps a route as a graph edge, and the search walks the routes directly.
- The trip's route list is a value (`seq<Route>`). Aliasing between a trip's list and the caller's is not modelled.
- Delivery.DeliveryController.BuildRouteKey: requires both names to be stored. The source would build a key holding `null` points otherwise, but every caller checks both points (`getRoute`) or the route (`deleteRoute`) first.
- Trip getters are field reads of the class. `getRoutes` on a trip returns its route sequence.
- The REST service, the authentication filter and the token service under `DELIVERY_WEB_SRV` are I/O layers and are not part of this model.
- Trips.Trip.constructor: the Java constructor sets no marks explicitly. The Java defaults of `false` are stated as the constructor's postcondition.
