/** Geodesic primitives of the navigation service: the great-circle distance,
    the initial bearing and its eight-point compass name. The trigonometry is
    floating point and stays abstract; what the code does with its results
    (normalising, rounding, indexing) is written out. */
module Geo {
  import opened Numeric

  datatype LatLon = LatLon(lat: real, lon: real)

  /** The floating-point functions the code calls but whose internals are not
      modelled: the Haversine distance in meters of `calculate_distance`, the
      asin-based Haversine in meters that `pin_search` builds for itself, the
      degrees of `atan2(y, x)` for the bearing from one point to another,
      `math.sqrt`, and `str()` of a float. */
  datatype Primitives = Primitives(
    haversine: (LatLon, LatLon) -> real,
    pinHaversine: (LatLon, LatLon) -> real,
    atan2Degrees: (LatLon, LatLon) -> real,
    sqrt: real -> real,
    floatText: real -> string)
  {
    /** The facts about them that the model relies on: distances are never
        negative and vanish from a point to itself, `atan2` in degrees lies in
        [-180, 180], and a square root is the non-negative root. */
    ghost predicate Valid() {
      && (forall a, b :: haversine(a, b) >= 0.0)
      && (forall a :: haversine(a, a) == 0.0)
      && (forall a, b :: pinHaversine(a, b) >= 0.0)
      && (forall a, b :: -180.0 <= atan2Degrees(a, b) <= 180.0)
      && (forall x :: x >= 0.0 ==> sqrt(x) >= 0.0 && sqrt(x) * sqrt(x) == x)
    }
  }

  /** `calculate_distance(lat1, lon1, lat2, lon2)`. */
  function Distance(p: Primitives, a: LatLon, b: LatLon): (d: real)
    requires p.Valid()
    ensures d >= 0.0
  {
    p.haversine(a, b)
  }

  /** `(bearing + 360) % 360` with the float `%`. */
  function NormalizeBearing(raw: real): (b: real)
    ensures 0.0 <= b < 360.0
  {
    FloorMod(raw + 360.0, 360.0)
  }

  /** On the output range of `atan2`, normalising maps negative angles up by
      a full turn and leaves the others alone. */
  lemma NormalizeBearingOfAtan2(raw: real)
    requires -180.0 <= raw <= 180.0
    ensures NormalizeBearing(raw) == if raw < 0.0 then raw + 360.0 else raw
  {
    var b := NormalizeBearing(raw);
    var k := ((raw + 360.0) / 360.0).Floor;
    assert raw + 360.0 == b + 360.0 * k as real;
    assert k == 0 || k == 1;
  }

  /** `_calculate_bearing`: the initial bearing in degrees. */
  function Bearing(p: Primitives, a: LatLon, b: LatLon): (r: real)
    requires p.Valid()
    ensures 0.0 <= r < 360.0
    ensures r == p.atan2Degrees(a, b) || r == p.atan2Degrees(a, b) + 360.0
  {
    NormalizeBearingOfAtan2(p.atan2Degrees(a, b));
    NormalizeBearing(p.atan2Degrees(a, b))
  }

  datatype Compass =
    North | Northeast | East | Southeast | South | Southwest | West | Northwest
  {
    function Name(): string {
      match this
      case North => "north"
      case Northeast => "northeast"
      case East => "east"
      case Southeast => "southeast"
      case South => "south"
      case Southwest => "southwest"
      case West => "west"
      case Northwest => "northwest"
    }

    /** The bearing this compass point names, in degrees. */
    function Heading(): real {
      match this
      case North => 0.0
      case Northeast => 45.0
      case East => 90.0
      case Southeast => 135.0
      case South => 180.0
      case Southwest => 225.0
      case West => 270.0
      case Northwest => 315.0
    }
  }

  /** The `directions` list of `_bearing_to_direction`, in its order. */
  const Directions: seq<Compass> :=
    [North, Northeast, East, Southeast, South, Southwest, West, Northwest]

  /** The angle between two bearings, going the short way round. */
  function CircularGap(a: real, b: real): real {
    var d := Abs(a - b);
    if d <= 180.0 then d else 360.0 - d
  }

  /** `round(bearing / 45) % 8`: always a valid index into `Directions`. */
  function DirectionIndex(bearing: real): (i: int)
    ensures 0 <= i < |Directions|
  {
    RoundHalfEven(bearing / 45.0) % 8
  }

  /** `_bearing_to_direction`. */
  function BearingToDirection(bearing: real): (c: Compass)
    ensures c.Heading() == 45.0 * DirectionIndex(bearing) as real
  {
    Directions[DirectionIndex(bearing)]
  }

  /** For a normalised bearing the name chosen is that of the compass point
      within 22.5 degrees of it: the nearest one. */
  lemma BearingToDirectionIsNearest(bearing: real)
    requires 0.0 <= bearing < 360.0
    ensures CircularGap(bearing, BearingToDirection(bearing).Heading()) <= 22.5
  {
    var k := RoundHalfEven(bearing / 45.0);
    assert k as real - 0.5 <= bearing / 45.0 <= k as real + 0.5;
    assert k as real * 45.0 - 22.5 <= bearing <= k as real * 45.0 + 22.5;
    assert 0 <= k <= 8;
    if k == 8 {
      assert DirectionIndex(bearing) == 0;
    } else {
      assert DirectionIndex(bearing) == k;
    }
  }
}
