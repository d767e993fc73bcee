/** The failure signals of the store and of the controller (the source's exception classes). */
module DeliveryErrors {
  import opened Entities

  datatype Error =
    | PointNotFound(point: Point)               // PointNotFoundException
    | SelfLoop(from: Point, to: Point)          // IllegalArgumentException from MapStorage.addRoute
    | ExistingPoint(point: Point)               // ExistingPointException
    | ExistingRoute(from: Point, to: Point)     // ExistingRouteException
    | RouteNotFound(fromName: string, toName: string) // RouteNotFoundException
    | NullDereference                           // NullPointerException on an unknown point name
}
