/**
 * `delivery.route.entities.Trip`: one path of a trip query, with its totals and the
 * two flags the selector sets after construction. The getters of the source are the
 * field reads of this class.
 */
module Trips {
  import opened Entities

  class Trip {
    const from: Point
    const to: Point
    const routes: seq<Route>
    var totalTime: int
    const totalCost: int
    // Query-scoped flags, false until the selector marks the trip.
    var fastest: bool
    var cheapest: bool

    constructor (from: Point, to: Point, routes: seq<Route>, totalTime: int, totalCost: int)
      ensures this.from == from && this.to == to && this.routes == routes
      ensures this.totalTime == totalTime && this.totalCost == totalCost
      ensures !fastest && !cheapest
    {
      this.from := from;
      this.to := to;
      this.routes := routes;
      this.totalTime := totalTime;
      this.totalCost := totalCost;
      fastest := false;
      cheapest := false;
    }

    method SetTotalTime(totalTime: int)
      modifies this
      ensures this.totalTime == totalTime
      ensures fastest == old(fastest) && cheapest == old(cheapest)
    {
      this.totalTime := totalTime;
    }

    method SetFastest(fastest: bool)
      modifies this
      ensures this.fastest == fastest
      ensures cheapest == old(cheapest) && totalTime == old(totalTime)
    {
      this.fastest := fastest;
    }

    method SetCheapest(cheapest: bool)
      modifies this
      ensures this.cheapest == cheapest
      ensures fastest == old(fastest) && totalTime == old(totalTime)
    {
      this.cheapest := cheapest;
    }
  }
}
