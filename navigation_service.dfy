/** `NavigationService` and `IndoorNavigationService` of
    markets/navigation_utils.py, over the reference tables of a `Catalog`.
    Loops of the source are methods proved against the functions that
    specify them; the functions carry the properties. */
module NavigationService {
  import opened Wrappers
  import opened Numeric
  import opened Geo
  import opened Collections
  import opened MarketModels
  import Polygon

  /* ---------------- geofences ---------------- */

  /** `is_point_in_geofence`: within the zone's circle, boundary included. */
  predicate InGeofence(p: Primitives, point: LatLon, z: GeofenceZone)
    requires p.Valid()
  {
    Distance(p, point, z.center) <= z.radiusMeters
  }

  /** `market.geofence_zones.all()`, in table order. */
  function MarketZones(c: Catalog, marketId: Id): seq<GeofenceZone> {
    Filter(c.zones, (z: GeofenceZone) => z.marketId == marketId)
  }

  /** The first zone of the list whose circle contains the point. */
  function FirstZone(p: Primitives, zones: seq<GeofenceZone>, point: LatLon): (r: Option<GeofenceZone>)
    requires p.Valid()
    ensures r.Some? ==>
              exists k :: && 0 <= k < |zones| && zones[k] == r.value && InGeofence(p, point, zones[k])
                          && forall j :: 0 <= j < k ==> !InGeofence(p, point, zones[j])
    ensures r.None? <==> forall k :: 0 <= k < |zones| ==> !InGeofence(p, point, zones[k])
  {
    if zones == [] then None
    else if InGeofence(p, point, zones[0]) then Some(zones[0])
    else
      var rest := FirstZone(p, zones[1..], point);
      assert forall k :: 1 <= k < |zones| ==> zones[k] == zones[1..][k - 1];
      rest
  }

  /** What `detect_user_zone` returns: nothing for an unknown market,
      otherwise the first of the market's zones that contains the point. */
  function UserZone(p: Primitives, c: Catalog, point: LatLon, marketId: Id): Option<GeofenceZone>
    requires p.Valid()
  {
    if FindMarket(c.markets, marketId).None? then None
    else FirstZone(p, MarketZones(c, marketId), point)
  }

  /** `detect_user_zone`: an early-return scan of the market's zones. */
  method DetectUserZone(p: Primitives, c: Catalog, point: LatLon, marketId: Id)
    returns (zone: Option<GeofenceZone>)
    requires p.Valid()
    ensures zone == UserZone(p, c, point, marketId)
  {
    if FindMarket(c.markets, marketId).None? {
      return None;
    }
    var zones := MarketZones(c, marketId);
    for i := 0 to |zones|
      invariant FirstZone(p, zones[i..], point) == FirstZone(p, zones, point)
    {
      assert zones[i..][1..] == zones[i + 1..];
      if InGeofence(p, point, zones[i]) {
        return Some(zones[i]);
      }
    }
    return None;
  }

  /** Standing at a zone's centre always finds a zone: the first zone of the
      market can only be skipped for one that also contains the point. */
  lemma {:induction false} ZoneCentreIsDetected(p: Primitives, c: Catalog, marketId: Id, k: nat)
    requires p.Valid() && FindMarket(c.markets, marketId).Some?
    requires k < |c.zones| && c.zones[k].marketId == marketId && c.zones[k].radiusMeters >= 0.0
    ensures UserZone(p, c, c.zones[k].center, marketId).Some?
    ensures InGeofence(p, c.zones[k].center, UserZone(p, c, c.zones[k].center, marketId).value)
  {
    var zones := MarketZones(c, marketId);
    var z := c.zones[k];
    assert z in zones;
    var i :| 0 <= i < |zones| && zones[i] == z;
    assert InGeofence(p, z.center, zones[i]);
  }

  /* ---------------- nearby shops ---------------- */

  /** One entry of `find_nearby_shops`: the shop and its distance rounded to
      two places (the other keys are the shop's own fields). */
  datatype NearbyShop = NearbyShop(shop: Shop, distanceMeters: real)

  function NearbyKey(e: NearbyShop): real { e.distanceMeters }

  /** `market.shops.filter(is_active=True, is_verified=True)`. */
  function ListedShops(c: Catalog, marketId: Id): seq<Shop> {
    Filter(c.shops, (s: Shop) => s.marketId == marketId && s.isActive && s.isVerified)
  }

  /** The entries the loop appends: shops whose unrounded distance is within
      the radius, in list order. */
  function WithinRadius(p: Primitives, shops: seq<Shop>, point: LatLon, radius: real): seq<NearbyShop>
    requires p.Valid()
  {
    if shops == [] then []
    else
      var last := shops[|shops| - 1];
      var d := Distance(p, point, last.location);
      WithinRadius(p, shops[..|shops| - 1], point, radius)
        + (if d <= radius then [NearbyShop(last, Round2(d))] else [])
  }

  /** What `find_nearby_shops` returns. */
  function NearbyShops(p: Primitives, c: Catalog, point: LatLon, marketId: Id, radius: real): seq<NearbyShop>
    requires p.Valid()
  {
    if FindMarket(c.markets, marketId).None? then []
    else SortByKey(WithinRadius(p, ListedShops(c, marketId), point, radius), NearbyKey)
  }

  /** `find_nearby_shops`: append every listed shop within the radius, then
      sort by the rounded distance. */
  method FindNearbyShops(p: Primitives, c: Catalog, point: LatLon, marketId: Id, radius: real)
    returns (nearby: seq<NearbyShop>)
    requires p.Valid()
    ensures nearby == NearbyShops(p, c, point, marketId, radius)
  {
    if FindMarket(c.markets, marketId).None? {
      return [];
    }
    var shops := ListedShops(c, marketId);
    nearby := [];
    for i := 0 to |shops|
      invariant nearby == WithinRadius(p, shops[..i], point, radius)
    {
      assert shops[..i + 1][..i] == shops[..i];
      var d := Distance(p, point, shops[i].location);
      if d <= radius {
        nearby := nearby + [NearbyShop(shops[i], Round2(d))];
      }
    }
    assert shops[..|shops|] == shops;
    nearby := SortByKey(nearby, NearbyKey);
  }

  lemma {:induction false} WithinRadiusMembers(p: Primitives, shops: seq<Shop>, point: LatLon, radius: real)
    requires p.Valid()
    ensures forall e :: e in WithinRadius(p, shops, point, radius) ==>
              e.shop in shops && Distance(p, point, e.shop.location) <= radius
              && e.distanceMeters == Round2(Distance(p, point, e.shop.location))
    ensures forall s :: s in shops && Distance(p, point, s.location) <= radius ==>
              NearbyShop(s, Round2(Distance(p, point, s.location))) in WithinRadius(p, shops, point, radius)
  {
    if shops != [] {
      var init := shops[..|shops| - 1];
      WithinRadiusMembers(p, init, point, radius);
      assert shops == init + [shops[|shops| - 1]];
    }
  }

  /** `find_nearby_shops` lists exactly the active, verified shops of a known
      market whose unrounded distance is within the radius, each with its
      distance rounded to two places, in non-decreasing rounded distance; an
      unknown market gives the empty list. */
  lemma NearbyShopsCorrect(p: Primitives, c: Catalog, point: LatLon, marketId: Id, radius: real)
    requires p.Valid()
    ensures FindMarket(c.markets, marketId).None? ==> NearbyShops(p, c, point, marketId, radius) == []
    ensures SortedBy(NearbyShops(p, c, point, marketId, radius), NearbyKey)
    ensures forall e :: e in NearbyShops(p, c, point, marketId, radius) ==>
              && e.shop in c.shops && e.shop.marketId == marketId
              && e.shop.isActive && e.shop.isVerified
              && Distance(p, point, e.shop.location) <= radius
              && e.distanceMeters == Round2(Distance(p, point, e.shop.location))
    ensures FindMarket(c.markets, marketId).Some? ==>
              forall s ::
                (s in c.shops && s.marketId == marketId && s.isActive && s.isVerified
                 && Distance(p, point, s.location) <= radius) ==>
                NearbyShop(s, Round2(Distance(p, point, s.location))) in NearbyShops(p, c, point, marketId, radius)
  {
    if FindMarket(c.markets, marketId).Some? {
      var listed := ListedShops(c, marketId);
      var w := WithinRadius(p, listed, point, radius);
      WithinRadiusMembers(p, listed, point, radius);
      SortByKeySortsAndPermutes(w, NearbyKey);
      var r := SortByKey(w, NearbyKey);
      forall e | e in r ensures e in w {
        assert e in multiset(r);
      }
      forall s | s in c.shops && s.marketId == marketId && s.isActive && s.isVerified
          && Distance(p, point, s.location) <= radius
        ensures NearbyShop(s, Round2(Distance(p, point, s.location))) in r
      {
        var k :| 0 <= k < |c.shops| && c.shops[k] == s;
        assert s in listed;
        var e := NearbyShop(s, Round2(Distance(p, point, s.location)));
        assert e in multiset(w);
      }
    }
  }

  /** A shop that is not verified (as every new shop is) is never listed. */
  lemma UnverifiedShopNeverNearby(p: Primitives, c: Catalog, point: LatLon, marketId: Id, radius: real, s: Shop)
    requires p.Valid() && !s.isVerified
    ensures forall e :: e in NearbyShops(p, c, point, marketId, radius) ==> e.shop != s
  {
    NearbyShopsCorrect(p, c, point, marketId, radius);
  }

  /* ---------------- indoor detection ---------------- */

  /** What `is_indoor_location` returns: false for an unknown market and for
      a boundary that is not a list of at least three entries, otherwise the
      ray cast of the point (x = longitude, y = latitude). */
  predicate IsIndoor(c: Catalog, point: LatLon, marketId: Id) {
    match FindMarket(c.markets, marketId)
    case None => false
    case Some(m) =>
      match m.boundary
      case PointList(pts) => |pts| >= 3 && Polygon.Inside(pts, point.lon, point.lat)
      case _ => false
  }

  /** `is_indoor_location`. */
  method IsIndoorLocation(c: Catalog, point: LatLon, marketId: Id) returns (indoor: bool)
    ensures indoor == IsIndoor(c, point, marketId)
  {
    var found := FindMarket(c.markets, marketId);
    if found.None? {
      return false;
    }
    var m := found.value;
    if m.boundary.NoBoundary? || (m.boundary.PointList? && m.boundary.points == []) {
      return false;
    }
    if m.boundary.PointList? && |m.boundary.points| >= 3 {
      indoor := Polygon.PointInPolygon(point.lat, point.lon, m.boundary.points);
      return;
    }
    return false;
  }

  /* ---------------- bearings and instructions ---------------- */

  /** `_generate_basic_instructions`. */
  function BasicInstructions(p: Primitives, start: LatLon, end: LatLon, name: string): (r: seq<Instruction>)
    requires p.Valid()
    ensures |r| == 2 && r[0].step == 1 && r[1].step == 2
    ensures r[0].at == Coordinate(start.lon, start.lat) && r[1].at == Coordinate(end.lon, end.lat)
    ensures r[1].text == "Arrive at " + name && r[1].distanceMeters == 0.0
    ensures r[0].bearing == r[1].bearing && 0.0 <= r[0].bearing < 360.0
  {
    var bearing := Bearing(p, start, end);
    var direction := BearingToDirection(bearing);
    var d := Distance(p, start, end);
    [Instruction(1, "Head " + direction.Name() + " toward " + name, Round2(d), bearing,
                 Coordinate(start.lon, start.lat)),
     Instruction(2, "Arrive at " + name, 0.0, bearing, Coordinate(end.lon, end.lat))]
  }

  /** The first step carries the whole rounded distance and names the
      compass point nearest the bearing; the two steps add up to it. */
  lemma BasicInstructionsAddUp(p: Primitives, start: LatLon, end: LatLon, name: string)
    requires p.Valid()
    ensures var r := BasicInstructions(p, start, end, name);
      && r[0].distanceMeters + r[1].distanceMeters == Round2(Distance(p, start, end))
      && r[0].text == "Head " + BearingToDirection(r[0].bearing).Name() + " toward " + name
      && CircularGap(r[0].bearing, BearingToDirection(r[0].bearing).Heading()) <= 22.5
  {
    BearingToDirectionIsNearest(Bearing(p, start, end));
  }

  /* ---------------- routes ---------------- */

  /** The route dictionaries of the navigation code: a stored generic route
      re-measured from the start, a direct two-point route to a shop, and the
      two-point route to raw coordinates built by `start_navigation`. */
  datatype Route =
    | CachedRoute(
        routeId: Id,
        destination: Shop,
        distanceMeters: real,
        coordinates: seq<Coordinate>,
        indoorCoordinates: Option<seq<IndoorPoint>>,
        storedInstructions: Option<seq<Instruction>>,
        landmarks: Option<seq<string>>,
        isIndoorRoute: bool,
        isAccessible: bool)
    | DirectRoute(
        destination: Shop,
        distanceMeters: real,
        estimatedTimeSeconds: int,
        coordinates: seq<Coordinate>,
        instructions: seq<Instruction>,
        isIndoorRoute: bool,
        isAccessible: bool)
    | PointRoute(
        destinationPoint: LatLon,
        destinationLabel: string,
        distanceMeters: real,
        coordinates: seq<Coordinate>)

  /** What `calculate_route_to_shop` returns. The navigation mode it takes is
      not used by the code, so it is not a parameter here. */
  function RouteToShop(p: Primitives, c: Catalog, start: LatLon, shopId: Id): Result<Route>
    requires p.Valid()
  {
    match FindShop(c.shops, shopId)
    case None => Err("Shop not found")
    case Some(shop) =>
      match FindGenericRoute(c.routes, shop.id)
      case Some(r) =>
        Ok(CachedRoute(r.id, shop, Distance(p, start, shop.location), r.coordinates,
                       r.indoorCoordinates, r.instructions, r.landmarks,
                       r.isIndoorRoute, r.isAccessibleRoute))
      case None =>
        var d := Distance(p, start, shop.location);
        Ok(DirectRoute(shop, Round2(d), Trunc(d / 1.4),
                       [Coordinate(start.lon, start.lat), Coordinate(shop.location.lon, shop.location.lat)],
                       BasicInstructions(p, start, shop.location, shop.name),
                       IsIndoor(c, start, shop.marketId), shop.isAccessible))
  }

  /** `calculate_route_to_shop`. */
  method CalculateRouteToShop(p: Primitives, c: Catalog, start: LatLon, shopId: Id)
    returns (route: Result<Route>)
    requires p.Valid()
    ensures route == RouteToShop(p, c, start, shopId)
  {
    var found := FindShop(c.shops, shopId);
    if found.None? {
      return Err("Shop not found");
    }
    var shop := found.value;
    var cached := FindGenericRoute(c.routes, shop.id);
    if cached.Some? {
      var r := cached.value;
      return Ok(CachedRoute(r.id, shop, Distance(p, start, shop.location), r.coordinates,
                            r.indoorCoordinates, r.instructions, r.landmarks,
                            r.isIndoorRoute, r.isAccessibleRoute));
    }
    var d := Distance(p, start, shop.location);
    var indoor := IsIndoorLocation(c, start, shop.marketId);
    route := Ok(DirectRoute(shop, Round2(d), Trunc(d / 1.4),
                            [Coordinate(start.lon, start.lat), Coordinate(shop.location.lon, shop.location.lat)],
                            BasicInstructions(p, start, shop.location, shop.name),
                            indoor, shop.isAccessible));
  }

  /** The three outcomes of `calculate_route_to_shop`: an error for an unknown
      shop; a stored generic route's data copied as is, re-measured from the
      start without rounding; or a direct route whose rounded distance is
      within half a centimetre of the true one and is what its two steps add
      up to, whose time is the whole seconds of walking at 1.4 m/s, and whose
      accessibility is the shop's. */
  lemma RouteToShopOutcomes(p: Primitives, c: Catalog, start: LatLon, shopId: Id)
    requires p.Valid()
    ensures var r := RouteToShop(p, c, start, shopId);
      && (r.Err? <==> FindShop(c.shops, shopId).None?)
      && (r.Err? ==> r.error == "Shop not found")
      && (r.Ok? && FindGenericRoute(c.routes, shopId).Some? ==>
            var g := FindGenericRoute(c.routes, shopId).value;
            && r.value.CachedRoute? && r.value.routeId == g.id
            && r.value.coordinates == g.coordinates && r.value.storedInstructions == g.instructions
            && r.value.landmarks == g.landmarks
            && r.value.distanceMeters == Distance(p, start, r.value.destination.location))
      && (r.Ok? && FindGenericRoute(c.routes, shopId).None? ==>
            var d := Distance(p, start, r.value.destination.location);
            && r.value.DirectRoute?
            && r.value.destination.id == shopId
            && r.value.coordinates == [Coordinate(start.lon, start.lat),
                                       Coordinate(r.value.destination.location.lon, r.value.destination.location.lat)]
            && Abs(r.value.distanceMeters - d) <= 0.005
            && r.value.distanceMeters
                 == r.value.instructions[0].distanceMeters + r.value.instructions[1].distanceMeters
            && r.value.estimatedTimeSeconds >= 0
            && r.value.estimatedTimeSeconds as real * 1.4 <= d < (r.value.estimatedTimeSeconds + 1) as real * 1.4
            && r.value.isAccessible == r.value.destination.isAccessible)
  {
    var r := RouteToShop(p, c, start, shopId);
    if r.Ok? && FindGenericRoute(c.routes, shopId).None? {
      var shop := FindShop(c.shops, shopId).value;
      var d := Distance(p, start, shop.location);
      var t := Trunc(d / 1.4);
      assert t as real <= d / 1.4 < t as real + 1.0;
      BasicInstructionsAddUp(p, start, shop.location, shop.name);
    }
  }

  /* ---------------- nearest market ---------------- */

  predicate WithinLimit(d: real, limit: Option<real>) {
    limit.None? || d <= limit.value
  }

  /** The index the scans of `_detect_nearest_market` and `pin_search` end
      on: each distance strictly below the best so far (and within the limit
      when there is one) becomes the new best. */
  function ArgMinWithin(ds: seq<real>, limit: Option<real>): (r: Option<nat>)
    ensures r.Some? ==> r.value < |ds|
  {
    if ds == [] then None
    else
      var prev := ArgMinWithin(ds[..|ds| - 1], limit);
      var d := ds[|ds| - 1];
      if (prev.None? || d < ds[prev.value]) && WithinLimit(d, limit) then Some(|ds| - 1) else prev
  }

  /** The scan finds nothing exactly when no distance is within the limit;
      otherwise it finds the earliest of the smallest distances within it. */
  lemma {:induction false} ArgMinWithinIsEarliestMinimum(ds: seq<real>, limit: Option<real>)
    ensures ArgMinWithin(ds, limit).None? <==> forall k :: 0 <= k < |ds| ==> !WithinLimit(ds[k], limit)
    ensures ArgMinWithin(ds, limit).Some? ==>
              var m := ArgMinWithin(ds, limit).value;
              && WithinLimit(ds[m], limit)
              && (forall k :: 0 <= k < |ds| && WithinLimit(ds[k], limit) ==> ds[m] <= ds[k])
              && (forall k :: 0 <= k < m && WithinLimit(ds[k], limit) ==> ds[m] < ds[k])
  {
    if ds != [] {
      var init := ds[..|ds| - 1];
      ArgMinWithinIsEarliestMinimum(init, limit);
      assert forall k :: 0 <= k < |init| ==> init[k] == ds[k];
    }
  }

  /** Cutting off after the scan, as `pin_search` does, finds the same entry
      as cutting off inside it, as `_detect_nearest_market` does. */
  lemma {:induction false} CutoffAfterScanAgrees(ds: seq<real>, limit: real)
    ensures ArgMinWithin(ds, Some(limit)) ==
      match ArgMinWithin(ds, None)
      case None => None
      case Some(k) => if ds[k] <= limit then Some(k) else None
  {
    if ds != [] {
      var init := ds[..|ds| - 1];
      CutoffAfterScanAgrees(init, limit);
      assert forall k :: 0 <= k < |init| ==> init[k] == ds[k];
    }
  }

  /** The distances from the point to each market, in table order. */
  function MarketDistances(p: Primitives, markets: seq<Market>, point: LatLon): (ds: seq<real>)
    requires p.Valid()
    ensures |ds| == |markets|
  {
    seq(|markets|, (k: int) requires 0 <= k < |markets| => p.haversine(point, markets[k].location))
  }

  /** What `_detect_nearest_market` returns. */
  function NearestMarket(p: Primitives, markets: seq<Market>, point: LatLon, maxKm: real): Option<Market>
    requires p.Valid()
  {
    match ArgMinWithin(MarketDistances(p, markets, point), Some(maxKm * 1000.0))
    case None => None
    case Some(k) => Some(markets[k])
  }

  /** `_detect_nearest_market`. `minDistance` stands for infinity while
      nothing has been found. */
  method DetectNearestMarket(p: Primitives, markets: seq<Market>, point: LatLon, maxKm: real)
    returns (nearest: Option<Market>)
    requires p.Valid()
    ensures nearest == NearestMarket(p, markets, point, maxKm)
  {
    ghost var ds := MarketDistances(p, markets, point);
    ghost var best: Option<nat> := None;
    nearest := None;
    var minDistance := 0.0;
    for i := 0 to |markets|
      invariant best == ArgMinWithin(ds[..i], Some(maxKm * 1000.0))
      invariant best.Some? ==> best.value < i && nearest == Some(markets[best.value]) && minDistance == ds[best.value]
      invariant best.None? ==> nearest.None?
    {
      assert ds[..i + 1][..i] == ds[..i];
      var distance := Distance(p, point, markets[i].location);
      if (nearest.None? || distance < minDistance) && distance <= maxKm * 1000.0 {
        minDistance := distance;
        nearest := Some(markets[i]);
        best := Some(i);
      }
    }
    assert ds[..|markets|] == ds;
  }

  /** `_detect_nearest_market` finds nothing exactly when every market is
      beyond the cutoff; otherwise it finds a market within it that is at
      least as close as every other such market and strictly closer than
      every earlier one. */
  lemma NearestMarketIsClosest(p: Primitives, markets: seq<Market>, point: LatLon, maxKm: real)
    requires p.Valid()
    ensures NearestMarket(p, markets, point, maxKm).None? <==>
              forall k :: 0 <= k < |markets| ==> Distance(p, point, markets[k].location) > maxKm * 1000.0
    ensures NearestMarket(p, markets, point, maxKm).Some? ==>
              exists m ::
                && 0 <= m < |markets| && NearestMarket(p, markets, point, maxKm) == Some(markets[m])
                && Distance(p, point, markets[m].location) <= maxKm * 1000.0
                && (forall k :: 0 <= k < |markets| && Distance(p, point, markets[k].location) <= maxKm * 1000.0
                      ==> Distance(p, point, markets[m].location) <= Distance(p, point, markets[k].location))
                && (forall k :: 0 <= k < m && Distance(p, point, markets[k].location) <= maxKm * 1000.0
                      ==> Distance(p, point, markets[m].location) < Distance(p, point, markets[k].location))
  {
    var ds := MarketDistances(p, markets, point);
    assert forall k :: 0 <= k < |markets| ==> ds[k] == Distance(p, point, markets[k].location);
    ArgMinWithinIsEarliestMinimum(ds, Some(maxKm * 1000.0));
  }

  /* ---------------- location ingestion ---------------- */

  /** The market `update_user_location` works under: the one given, or,
      with none given and auto-detection on, the nearest within 5 km. */
  function LocatedMarket(p: Primitives, c: Catalog, point: LatLon, marketId: Option<Id>, autoDetect: bool)
    : (mid: Option<Id>)
    requires p.Valid()
    ensures marketId.Some? ==> mid == marketId
    ensures marketId.None? && !autoDetect ==> mid.None?
    ensures marketId.None? && autoDetect ==>
              && (mid.None? <==> NearestMarket(p, c.markets, point, 5.0).None?)
              && (mid.Some? ==> mid.value == NearestMarket(p, c.markets, point, 5.0).value.id
                                && FindMarket(c.markets, mid.value).Some?)
  {
    if marketId.None? && autoDetect then
      match NearestMarket(p, c.markets, point, 5.0)
      case None => None
      case Some(m) =>
        NearestMarketIsClosest(p, c.markets, point, 5.0);
        Some(m.id)
    else marketId
  }

  /** The record `update_user_location` creates for a known user. Under a
      market id, the indoor flag, zone and nearest shop within 10 m are
      looked up under it, and the market is recorded only when the id is
      known. */
  function LocationRecord(p: Primitives, c: Catalog, id: Id, userId: Id, point: LatLon,
                          marketId: Option<Id>, autoDetect: bool, extras: LocationExtras,
                          now: Instant): UserLocation
    requires p.Valid()
  {
    match LocatedMarket(p, c, point, marketId, autoDetect)
    case None => UserLocation(id, userId, None, point, extras, false, None, None, now)
    case Some(m) =>
      var nearby := NearbyShops(p, c, point, m, 10.0);
      var zone := UserZone(p, c, point, m);
      UserLocation(id, userId,
                   if FindMarket(c.markets, m).Some? then Some(m) else None,
                   point, extras, IsIndoor(c, point, m),
                   if nearby == [] then None else Some(nearby[0].shop.id),
                   if zone.None? then None else Some(zone.value.id),
                   now)
  }

  /** A shop `find_nearby_shops(..., 10)` may list for the market. */
  predicate CloseListedShop(p: Primitives, c: Catalog, point: LatLon, m: Id, s: Shop)
    requires p.Valid()
  {
    s in c.shops && s.marketId == m && s.isActive && s.isVerified && Distance(p, point, s.location) <= 10.0
  }

  /** What a location record says when taken under market `m`: the market
      only when it exists, its indoor flag, the first of its zones that
      contains the point, and a nearest close shop, if any; nothing of that
      under an unknown id. */
  ghost predicate RecordedUnder(p: Primitives, c: Catalog, point: LatLon, loc: UserLocation, m: Id)
    requires p.Valid()
  {
    var zones := MarketZones(c, m);
    && loc.isIndoor == IsIndoor(c, point, m)
    && (FindMarket(c.markets, m).None? ==>
          loc.marketId.None? && loc.currentShop.None? && loc.currentZone.None? && !loc.isIndoor)
    && (FindMarket(c.markets, m).Some? ==>
          && loc.marketId == Some(m)
          && (loc.currentZone.None? <==> forall k :: 0 <= k < |zones| ==> !InGeofence(p, point, zones[k]))
          && (loc.currentShop.None? <==> forall t :: !CloseListedShop(p, c, point, m, t)))
    && (loc.currentZone.Some? ==>
          exists k :: && 0 <= k < |zones| && zones[k].id == loc.currentZone.value && InGeofence(p, point, zones[k])
                      && forall j :: 0 <= j < k ==> !InGeofence(p, point, zones[j]))
    && (loc.currentShop.Some? ==>
          exists s :: && CloseListedShop(p, c, point, m, s) && s.id == loc.currentShop.value
                      && forall t :: CloseListedShop(p, c, point, m, t) ==>
                           Round2(Distance(p, point, s.location)) <= Round2(Distance(p, point, t.location)))
  }

  /** `update_user_location` stores the user, the point and the extra
      fields as given. With a market id, or with none and auto-detection
      finding a market within 5 km, the record is taken under that market;
      otherwise it has no market, shop or zone and is not indoors. */
  lemma LocationRecordFacts(p: Primitives, c: Catalog, id: Id, userId: Id, point: LatLon,
                            marketId: Option<Id>, autoDetect: bool, extras: LocationExtras, now: Instant)
    requires p.Valid()
    ensures var loc := LocationRecord(p, c, id, userId, point, marketId, autoDetect, extras, now);
            && loc.id == id && loc.userId == userId && loc.location == point && loc.extras == extras
            && loc.timestamp == now
    ensures var loc := LocationRecord(p, c, id, userId, point, marketId, autoDetect, extras, now);
            marketId.Some? ==> RecordedUnder(p, c, point, loc, marketId.value)
    ensures var loc := LocationRecord(p, c, id, userId, point, marketId, autoDetect, extras, now);
            var nearest := NearestMarket(p, c.markets, point, 5.0);
            marketId.None? && autoDetect && nearest.Some? ==>
              loc.marketId == Some(nearest.value.id) && RecordedUnder(p, c, point, loc, nearest.value.id)
    ensures var loc := LocationRecord(p, c, id, userId, point, marketId, autoDetect, extras, now);
            marketId.None? && (!autoDetect || NearestMarket(p, c.markets, point, 5.0).None?) ==>
              loc.marketId.None? && loc.currentShop.None? && loc.currentZone.None? && !loc.isIndoor
  {
    var mid := LocatedMarket(p, c, point, marketId, autoDetect);
    if mid.Some? {
      RecordUnderMarket(p, c, id, userId, point, marketId, autoDetect, extras, now);
    }
  }

  /** The record taken under the located market satisfies `RecordedUnder`. */
  lemma RecordUnderMarket(p: Primitives, c: Catalog, id: Id, userId: Id, point: LatLon,
                          marketId: Option<Id>, autoDetect: bool, extras: LocationExtras, now: Instant)
    requires p.Valid() && LocatedMarket(p, c, point, marketId, autoDetect).Some?
    ensures RecordedUnder(p, c, point, LocationRecord(p, c, id, userId, point, marketId, autoDetect, extras, now),
                          LocatedMarket(p, c, point, marketId, autoDetect).value)
  {
    var m := LocatedMarket(p, c, point, marketId, autoDetect).value;
    var loc := LocationRecord(p, c, id, userId, point, marketId, autoDetect, extras, now);
    CloseShopsOfNearby(p, c, point, m);
    if FindMarket(c.markets, m).Some? {
      assert UserZone(p, c, point, m) == FirstZone(p, MarketZones(c, m), point);
    }
  }

  /** The head of the nearby list is a close listed shop no other one beats
      at two-place rounding; the list is empty under a known market only
      when there is no close listed shop. */
  lemma CloseShopsOfNearby(p: Primitives, c: Catalog, point: LatLon, m: Id)
    requires p.Valid()
    ensures var nearby := NearbyShops(p, c, point, m, 10.0);
      && (nearby != [] ==>
            && CloseListedShop(p, c, point, m, nearby[0].shop)
            && forall t :: CloseListedShop(p, c, point, m, t) ==>
                 Round2(Distance(p, point, nearby[0].shop.location)) <= Round2(Distance(p, point, t.location)))
      && (nearby == [] && FindMarket(c.markets, m).Some? ==> forall t :: !CloseListedShop(p, c, point, m, t))
  {
    var nearby := NearbyShops(p, c, point, m, 10.0);
    NearbyShopsCorrect(p, c, point, m, 10.0);
    if nearby != [] {
      var s := nearby[0].shop;
      assert nearby[0] in nearby;
      forall t | CloseListedShop(p, c, point, m, t)
        ensures Round2(Distance(p, point, s.location)) <= Round2(Distance(p, point, t.location))
      {
        var e := NearbyShop(t, Round2(Distance(p, point, t.location)));
        assert e in nearby;
        var k :| 0 <= k < |nearby| && nearby[k] == e;
        if k > 0 {
          assert NearbyKey(nearby[0]) <= NearbyKey(nearby[k]);
        }
      }
    }
  }

  /* ---------------- indoor routes ---------------- */

  datatype IndoorDirection = Right | Left | Forward | Backward
  {
    function Name(): string {
      match this
      case Right => "right"
      case Left => "left"
      case Forward => "forward"
      case Backward => "backward"
    }

    function Opposite(): IndoorDirection {
      match this
      case Right => Left
      case Left => Right
      case Forward => Backward
      case Backward => Forward
    }
  }

  /** The dominant-axis rule of `_generate_indoor_instructions`. */
  function IndoorDirectionOf(dx: real, dy: real): IndoorDirection {
    if Abs(dx) > Abs(dy) then (if dx > 0.0 then Right else Left)
    else (if dy > 0.0 then Forward else Backward)
  }

  /** Sideways exactly when the horizontal displacement strictly dominates;
      no displacement at all reads as backward; walking the other way gives
      the opposite direction whenever there is a displacement. */
  lemma IndoorDirectionRule(dx: real, dy: real)
    ensures (IndoorDirectionOf(dx, dy) in {Right, Left}) <==> Abs(dx) > Abs(dy)
    ensures IndoorDirectionOf(dx, dy) == Right <==> Abs(dx) > Abs(dy) && dx > 0.0
    ensures IndoorDirectionOf(dx, dy) == Forward <==> Abs(dx) <= Abs(dy) && dy > 0.0
    ensures IndoorDirectionOf(0.0, 0.0) == Backward
    ensures (dx, dy) != (0.0, 0.0) ==> IndoorDirectionOf(-dx, -dy) == IndoorDirectionOf(dx, dy).Opposite()
  {
  }

  /** `str(round(d, 1))` for a non-negative distance. */
  function TenthsText(d: real): string
    requires d >= 0.0
  {
    var n := RoundHalfEven(d * 10.0);
    DecimalText(n / 10) + "." + [DigitChar(n % 10)]
  }

  /** The text spells `round(d, 1)`: the digits before the point and the one
      after it make up that many tenths. */
  lemma TenthsTextSpellsRound1(d: real)
    requires d >= 0.0
    ensures var s := TenthsText(d);
      && |s| >= 3 && s[|s| - 2] == '.' && '0' <= s[|s| - 1] <= '9'
      && (forall i :: 0 <= i < |s| - 2 ==> '0' <= s[i] <= '9')
      && (DigitsValue(s[..|s| - 2]) * 10 + DigitsValue(s[|s| - 1..])) as real == Round1(d) * 10.0
  {
    var n := RoundHalfEven(d * 10.0);
    var s := TenthsText(d);
    var whole := DecimalText(n / 10);
    var last := [DigitChar(n % 10)];
    assert s == whole + "." + last;
    assert s[..|s| - 2] == whole;
    assert s[|s| - 1..] == last && last[..0] == [];
    DecimalTextValue(n / 10);
    DigitCharValue(n % 10);
    assert DigitsValue(last) == n % 10;
    assert Round1(d) * 10.0 == n as real;
  }

  datatype IndoorInstruction = IndoorInstruction(step: nat, text: string, distanceMeters: real, at: IndoorPoint)

  datatype IndoorRoute = IndoorRoute(
    routePoints: seq<IndoorPoint>,
    distanceMeters: real,
    estimatedTimeSeconds: int,
    floor: int,
    instructions: seq<IndoorInstruction>)

  /** `_generate_indoor_instructions`. */
  function IndoorInstructions(p: Primitives, start: IndoorPoint, end: IndoorPoint): (r: seq<IndoorInstruction>)
    requires p.Valid()
    ensures |r| == 2 && r[0].step == 1 && r[1].step == 2
    ensures r[0].at == start && r[1].at == end && r[1].distanceMeters == 0.0
    ensures r[1].text == "You have arrived at your destination"
  {
    var dx := end.x - start.x;
    var dy := end.y - start.y;
    var direction := IndoorDirectionOf(dx, dy);
    var distance := Length(p, dx, dy);
    [IndoorInstruction(1, "Walk " + direction.Name() + " for " + TenthsText(distance) + " meters",
                       Round2(distance), start),
     IndoorInstruction(2, "You have arrived at your destination", 0.0, end)]
  }

  /** `math.sqrt(dx**2 + dy**2)`: the Euclidean length of a displacement. */
  function Length(p: Primitives, dx: real, dy: real): (d: real)
    requires p.Valid()
    ensures d >= 0.0 && d * d == dx * dx + dy * dy
  {
    assert dx * dx >= 0.0 && dy * dy >= 0.0;
    p.sqrt(dx * dx + dy * dy)
  }

  /** What `calculate_indoor_route` returns. */
  function CalculateIndoorRoute(p: Primitives, c: Catalog, startX: real, startY: real,
                                endX: real, endY: real, floor: int, marketId: Id): (r: Result<IndoorRoute>)
    requires p.Valid()
    ensures r.Err? <==> FindMarket(c.markets, marketId).None? || !FindMarket(c.markets, marketId).value.indoorMapEnabled
  {
    match FindMarket(c.markets, marketId)
    case None => Err("Market not found")
    case Some(m) =>
      if !m.indoorMapEnabled then Err("Indoor navigation not available for this market")
      else
        var distance := Length(p, endX - startX, endY - startY);
        var start, end := IndoorPoint(startX, startY, floor), IndoorPoint(endX, endY, floor);
        Ok(IndoorRoute([start, end], Round2(distance), Trunc(distance / 1.0), floor,
                       IndoorInstructions(p, start, end)))
  }

  /** The error messages of `calculate_indoor_route`, and on success a
      two-point route on the requested floor whose rounded distance is within
      half a centimetre of the straight-line length and whose time is its
      whole seconds at 1 m/s. */
  lemma IndoorRouteFacts(p: Primitives, c: Catalog, startX: real, startY: real,
                         endX: real, endY: real, floor: int, marketId: Id)
    requires p.Valid()
    ensures var r := CalculateIndoorRoute(p, c, startX, startY, endX, endY, floor, marketId);
      && (FindMarket(c.markets, marketId).None? ==> r == Err("Market not found"))
      && (r.Err? && FindMarket(c.markets, marketId).Some? ==>
            r.error == "Indoor navigation not available for this market")
      && (r.Ok? ==>
            var d := Length(p, endX - startX, endY - startY);
            && r.value.routePoints == [IndoorPoint(startX, startY, floor), IndoorPoint(endX, endY, floor)]
            && r.value.floor == floor
            && Abs(r.value.distanceMeters - d) <= 0.005
            && r.value.estimatedTimeSeconds as real <= d < r.value.estimatedTimeSeconds as real + 1.0
            && r.value.instructions[0].distanceMeters == r.value.distanceMeters)
  {
    var d := Length(p, endX - startX, endY - startY);
    assert d / 1.0 == d;
  }

  /** A market left at its defaults offers no indoor route. */
  lemma DefaultMarketHasNoIndoorRoute(p: Primitives, c: Catalog, startX: real, startY: real,
                                      endX: real, endY: real, floor: int, id: Id, name: string, location: LatLon)
    requires p.Valid() && FindMarket(c.markets, id) == Some(NewMarket(id, name, location))
    ensures CalculateIndoorRoute(p, c, startX, startY, endX, endY, floor, id)
              == Err("Indoor navigation not available for this market")
  {
  }
}
