/**
 * The value classes of package `delivery.entities`: a point on the map, a directed
 * route between two points, and the key under which a route is stored.
 * All three are immutable in the source, so they are datatypes here; a datatype's
 * constructor and destructors play the part of the Java constructors and getters.
 */
module Entities {

  /** A location on the map, identified only by its name. */
  datatype Point = Point(name: string)

  /** The ordered pair (from, to) that identifies a stored route. */
  datatype RouteKey = RouteKey(from: Point, to: Point)

  /** A directed, weighted link. The source performs no validation of the fields. */
  datatype Route = Route(from: Point, to: Point, time: int, cost: int)

  /**
   * The argument of a Java `equals(Object)` call: `null`, a point, a route key,
   * or an object of some other class.
   */
  datatype Obj = Null | PointObj(point: Point) | KeyObj(key: RouteKey) | OtherObj

  /** The key a route is stored under: its own endpoints, in order. */
  function KeyOf(r: Route): RouteKey
  {
    RouteKey(r.from, r.to)
  }

  // ---------------------------------------------------------------- Point

  /** `new Point(Point)`: the copy constructor. */
  function CopyPoint(p: Point): (c: Point)
    ensures PointEquals(c, PointObj(p))
  {
    Point(p.name)
  }

  /**
   * `Point.equals`: false for `null` and for any object of another class,
   * otherwise a comparison of the names.
   */
  function PointEquals(p: Point, obj: Obj): (r: bool)
    ensures r <==> obj == PointObj(p)
  {
    match obj
    case PointObj(other) => p.name == other.name
    case _ => false
  }

  /** Java's `String.hashCode`, as the polynomial sum of the characters in base 31 (without 32-bit wrap-around). */
  function StringHash(s: string): int
  {
    if s == [] then 0 else 31 * StringHash(s[..|s| - 1]) + s[|s| - 1] as int
  }

  /** `Point.hashCode`: `31 * 1 + name.hashCode()`. */
  function PointHash(p: Point): int
  {
    31 * 1 + StringHash(p.name)
  }

  lemma PointEqualsIsReflexive(p: Point)
    ensures PointEquals(p, PointObj(p))
  {
  }

  lemma PointEqualsIsSymmetric(p: Point, q: Point)
    ensures PointEquals(p, PointObj(q)) <==> PointEquals(q, PointObj(p))
  {
  }

  lemma PointEqualsRejectsOthers(p: Point, k: RouteKey)
    ensures !PointEquals(p, Null) && !PointEquals(p, KeyObj(k)) && !PointEquals(p, OtherObj)
  {
  }

  /** The hash depends on the name only, so points that are equal hash equally. */
  lemma EqualPointsHashEqually(p: Point, q: Point)
    requires PointEquals(p, PointObj(q))
    ensures PointHash(p) == PointHash(q)
  {
  }

  // ---------------------------------------------------------------- RouteKey

  /**
   * `RouteKey.equals`: false for `null` and for anything that is not a route key,
   * otherwise `from.equals(other.from) && to.equals(other.to)`.
   */
  function KeyEquals(k: RouteKey, obj: Obj): (r: bool)
    ensures r <==> obj == KeyObj(k)
  {
    match obj
    case KeyObj(other) => PointEquals(k.from, PointObj(other.from)) && PointEquals(k.to, PointObj(other.to))
    case _ => false
  }

  /** `RouteKey.hashCode`: `from.hashCode() * 31 + to.hashCode()` (without 32-bit wrap-around). */
  function KeyHash(k: RouteKey): int
  {
    PointHash(k.from) * 31 + PointHash(k.to)
  }

  /** Key equality is order-sensitive: A->B equals B->A only when A and B are the same point. */
  lemma KeyEqualityIsOrdered(a: Point, b: Point)
    ensures KeyEquals(RouteKey(a, b), KeyObj(RouteKey(b, a))) <==> a == b
  {
  }

  lemma KeyEqualsRejectsOthers(k: RouteKey, p: Point)
    ensures !KeyEquals(k, Null) && !KeyEquals(k, PointObj(p)) && !KeyEquals(k, OtherObj)
  {
  }

  lemma EqualKeysHashEqually(a: RouteKey, b: RouteKey)
    requires KeyEquals(a, KeyObj(b))
    ensures KeyHash(a) == KeyHash(b)
  {
  }

  // ---------------------------------------------------------------- Route

  /** `new Route(Route)`: the copy constructor yields the same endpoints, time and cost. */
  function CopyRoute(r: Route): (c: Route)
    ensures c.from == r.from && c.to == r.to && c.time == r.time && c.cost == r.cost
    ensures KeyEquals(KeyOf(c), KeyObj(KeyOf(r)))
  {
    Route(r.from, r.to, r.time, r.cost)
  }
}
