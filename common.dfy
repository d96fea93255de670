// Shared value types used across the model: optional values, points on the
// globe, and the abstract great-circle distance every service relies on.
module Common {

  datatype Option<T> = None | Some(value: T)

  /** Python truthiness of a nullable float column: None and 0.0 are both falsy. */
  predicate Truthy(o: Option<real>)
  {
    o.Some? && o.value != 0.0
  }

  /** A latitude/longitude pair in degrees. */
  datatype Point = Point(lat: real, lng: real)

  /**
   * The repository computes great-circle distances with four copies of the
   * Haversine formula. The model takes that distance as a parameter; the
   * properties the code relies on are the ones of a distance: never negative,
   * zero from a point to itself, and symmetric.
   */
  type Metric = (Point, Point) -> real

  ghost predicate IsDistance(dist: Metric)
  {
    (forall p: Point, q: Point :: dist(p, q) >= 0.0 && dist(p, q) == dist(q, p)) &&
    (forall p: Point :: dist(p, p) == 0.0)
  }

  /** The distances in suggestion_engine.py are in metres. */
  function Metres(dist: Metric, p: Point, q: Point): real
  {
    1000.0 * dist(p, q)
  }

  /** int() of a float: truncation toward zero. */
  function Trunc(x: real): int
  {
    if x >= 0.0 then x.Floor else -((-x).Floor)
  }

  /** Timestamps are whole seconds; dates are day numbers. */
  const Minute: int := 60
  const Hour: int := 3600
  const Day: int := 86400

  /** A row saved twice holds what the second save wrote. */
  lemma UpdatedTwice<K, V>(m: map<K, V>, k: K, a: V, b: V)
    ensures m[k := a][k := b] == m[k := b]
  {
  }
}
