/**
 * Place-name lookup and the distance between two looked-up places
 * (`GetCoords`, `DistanceCalculation` and `GetDistance` of `CFPApp`).
 *
 * The geocoding service and the haversine formula are outside the model:
 * both are passed in as function values.
 */
module Geo {
  import opened Wrappers

  /** A latitude/longitude pair in degrees. */
  datatype Coord = Coord(lat: real, lon: real)

  /**
   * What the geocoding service answers for an (already encoded) query:
   * the coordinates of its first hit, or None when it has no hit, the
   * response is not ok, or anything on the way raises.
   */
  type Lookup = string -> Option<Coord>

  /** Great-circle distance in km between two coordinates. */
  type Metric = (Coord, Coord) -> real

  /** A distance function never yields a negative length. */
  ghost predicate NonNegative(dist: Metric)
  {
    forall a, b :: dist(a, b) >= 0.0
  }

  /** The query string sent for a place name: every space becomes '+'. */
  function EncodeQuery(place: string): (q: string)
    ensures |q| == |place|
    ensures forall i :: 0 <= i < |place| ==> q[i] == (if place[i] == ' ' then '+' else place[i])
    ensures ' ' !in q
  {
    if place == [] then []
    else [if place[0] == ' ' then '+' else place[0]] + EncodeQuery(place[1..])
  }

  /**
   * Coordinates of a place: the service is asked with the name in which
   * every space has been replaced by '+'.
   */
  function GetCoords(place: string, lookup: Lookup): (c: Option<Coord>)
    ensures c == lookup(seq(|place|, i requires 0 <= i < |place| => if place[i] == ' ' then '+' else place[i]))
  {
    assert EncodeQuery(place) == seq(|place|, i requires 0 <= i < |place| => if place[i] == ' ' then '+' else place[i]);
    lookup(EncodeQuery(place))
  }

  /**
   * Distance between two places, or None unless both of them resolved.
   * Both lookups are made before either result is inspected.
   */
  function GetDistance(origin: string, destination: string, lookup: Lookup, dist: Metric): (d: Option<real>)
    ensures d.None? <==> GetCoords(origin, lookup).None? || GetCoords(destination, lookup).None?
    ensures d.Some? ==> d.value == dist(GetCoords(origin, lookup).value, GetCoords(destination, lookup).value)
    ensures NonNegative(dist) && d.Some? ==> d.value >= 0.0
  {
    var coords1 := GetCoords(origin, lookup);
    var coords2 := GetCoords(destination, lookup);
    if coords1.Some? && coords2.Some? then Some(dist(coords1.value, coords2.value)) else None
  }
}
