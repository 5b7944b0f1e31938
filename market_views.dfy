/** The read-only market endpoints of markets/views.py: `pin_search` and
    `shops` of `MarketViewSet`, `detect_zone` of `GeofenceViewSet`, and
    `indoor_route` of `NavigationViewSet`. */
module MarketViews {
  import opened Wrappers
  import opened Numeric
  import opened Geo
  import opened Collections
  import opened MarketModels
  import opened NavigationService

  /** A request parameter: absent or falsy, present but rejected by
      `float()`/`int()`, or the converted value. */
  datatype Param<+T> = Missing | Unparsable | Given(value: T)

  /* ---------------- pin_search ---------------- */

  /** `pin_search`'s own Haversine from the point to each market, in table order. */
  function PinDistances(p: Primitives, markets: seq<Market>, point: LatLon): (ds: seq<real>)
    requires p.Valid()
    ensures |ds| == |markets|
  {
    seq(|markets|, (k: int) requires 0 <= k < |markets| => p.pinHaversine(point, markets[k].location))
  }

  datatype PinResult = PinResult(market: Market, distanceMeters: int)

  const PinRadiusMeters := 5000.0

  /** What `pin_search` answers: 400 for a missing or malformed coordinate;
      otherwise the strictly closest market, 404 when there is none or it is
      more than 5000 m away, its distance rounded to whole meters. */
  function PinSearchAnswer(p: Primitives, markets: seq<Market>, lat: Param<real>, lng: Param<real>): Response<PinResult>
    requires p.Valid()
  {
    if lat.Missing? || lng.Missing? then Failure(HTTP_400, "Both 'lat' and 'lng' parameters are required")
    else if lat.Unparsable? || lng.Unparsable? then Failure(HTTP_400, "Invalid coordinate format")
    else
      var ds := PinDistances(p, markets, LatLon(lat.value, lng.value));
      match ArgMinWithin(ds, None)
      case None => Failure(HTTP_404, "No markets found near this location")
      case Some(k) =>
        if ds[k] > PinRadiusMeters then Failure(HTTP_404, "No markets found near this location")
        else Success(HTTP_200, PinResult(markets[k], RoundHalfEven(ds[k])))
  }

  /** `pin_search`: the strict-minimum scan. `minDistance` stands for
      infinity while no market has been seen. */
  method PinSearch(p: Primitives, markets: seq<Market>, lat: Param<real>, lng: Param<real>)
    returns (resp: Response<PinResult>)
    requires p.Valid()
    ensures resp == PinSearchAnswer(p, markets, lat, lng)
  {
    if lat.Missing? || lng.Missing? {
      return Failure(HTTP_400, "Both 'lat' and 'lng' parameters are required");
    }
    if lat.Unparsable? || lng.Unparsable? {
      return Failure(HTTP_400, "Invalid coordinate format");
    }
    ghost var ds := PinDistances(p, markets, LatLon(lat.value, lng.value));
    ghost var best: Option<nat> := None;
    var closest: Option<Market> := None;
    var minDistance := 0.0;
    for i := 0 to |markets|
      invariant best == ArgMinWithin(ds[..i], None)
      invariant best.Some? ==> best.value < i && closest == Some(markets[best.value]) && minDistance == ds[best.value]
      invariant best.None? ==> closest.None?
    {
      assert ds[..i + 1][..i] == ds[..i];
      var distance := p.pinHaversine(LatLon(lat.value, lng.value), markets[i].location);
      if closest.None? || distance < minDistance {
        minDistance := distance;
        closest := Some(markets[i]);
        best := Some(i);
      }
    }
    assert ds[..|markets|] == ds;
    if closest.None? || minDistance > PinRadiusMeters {
      return Failure(HTTP_404, "No markets found near this location");
    }
    resp := Success(HTTP_200, PinResult(closest.value, RoundHalfEven(minDistance)));
  }

  /** With a list of markets, `pin_search` answers 404 exactly when every
      market is more than 5000 m away; its reported distance is within half a
      meter of the closest market's distance. Where its Haversine agrees
      with `calculate_distance`, it finds the same market as
      `_detect_nearest_market` with a 5 km cutoff. */
  lemma PinSearchFindsNearestMarket(p: Primitives, markets: seq<Market>, lat: real, lng: real)
    requires p.Valid()
    ensures var r := PinSearchAnswer(p, markets, Given(lat), Given(lng));
      && (r.Failure? <==>
            forall k :: 0 <= k < |markets| ==> p.pinHaversine(LatLon(lat, lng), markets[k].location) > PinRadiusMeters)
      && (r.Success? ==>
            && r.body.market in markets
            && (forall k :: 0 <= k < |markets| ==>
                  r.body.distanceMeters as real - 0.5 <= p.pinHaversine(LatLon(lat, lng), markets[k].location)))
    ensures var r := PinSearchAnswer(p, markets, Given(lat), Given(lng));
            var ds := PinDistances(p, markets, LatLon(lat, lng));
            r.Success? ==>
              exists k :: 0 <= k < |markets| && markets[k] == r.body.market
                && r.body.distanceMeters == RoundHalfEven(ds[k])
                && (forall j :: 0 <= j < |markets| ==> ds[k] <= ds[j])
                && (forall j :: 0 <= j < k ==> ds[j] > ds[k])
    ensures (forall a, b :: p.pinHaversine(a, b) == p.haversine(a, b)) ==>
              var r := PinSearchAnswer(p, markets, Given(lat), Given(lng));
              && (r.Success? <==> NearestMarket(p, markets, LatLon(lat, lng), 5.0).Some?)
              && (r.Success? ==> NearestMarket(p, markets, LatLon(lat, lng), 5.0) == Some(r.body.market))
  {
    var point := LatLon(lat, lng);
    var ds := PinDistances(p, markets, point);
    assert forall k :: 0 <= k < |markets| ==> ds[k] == p.pinHaversine(point, markets[k].location);
    ArgMinWithinIsEarliestMinimum(ds, None);
    CutoffAfterScanAgrees(ds, PinRadiusMeters);
    ArgMinWithinIsEarliestMinimum(ds, Some(PinRadiusMeters));
    if ArgMinWithin(ds, None).Some? {
      var k := ArgMinWithin(ds, None).value;
      assert forall j :: 0 <= j < |markets| ==> WithinLimit(ds[j], None);
      assert k < |markets| && markets[k] == markets[k];
    }
    if forall a, b :: p.pinHaversine(a, b) == p.haversine(a, b) {
      var ms := MarketDistances(p, markets, point);
      assert forall k :: 0 <= k < |markets| ==> ms[k] == ds[k];
      assert ds == ms;
      assert 5.0 * 1000.0 == PinRadiusMeters;
    }
  }

  /* ---------------- shops of a market ---------------- */

  /** One listed shop, with the distance the code attaches to it when the
      user's coordinates are given and valid. */
  datatype ShopEntry = ShopEntry(shop: Shop, distanceMeters: Option<real>)

  function EntryDistance(e: ShopEntry): real {
    if e.distanceMeters.Some? then e.distanceMeters.value else 0.0
  }

  function Unmeasured(shops: seq<Shop>): seq<ShopEntry> {
    seq(|shops|, (k: int) requires 0 <= k < |shops| => ShopEntry(shops[k], None))
  }

  function Measured(p: Primitives, shops: seq<Shop>, point: LatLon): seq<ShopEntry>
    requires p.Valid()
  {
    seq(|shops|, (k: int) requires 0 <= k < |shops| =>
      ShopEntry(shops[k], Some(Distance(p, point, shops[k].location))))
  }

  datatype ShopListing = ShopListing(market: Market, shops: seq<ShopEntry>, count: nat)

  /** What `shops` answers. */
  function ShopsAnswer(p: Primitives, c: Catalog, marketId: Id, userLat: Param<real>, userLon: Param<real>)
    : Response<ShopListing>
    requires p.Valid()
  {
    match FindMarket(c.markets, marketId)
    case None => Failure(HTTP_404, "Not found.")
    case Some(m) =>
      var listed := ListedShops(c, marketId);
      var entries :=
        if userLat.Given? && userLon.Given? then
          SortByKey(Measured(p, listed, LatLon(userLat.value, userLon.value)), EntryDistance)
        else Unmeasured(listed);
      Success(HTTP_200, ShopListing(m, entries, |entries|))
  }

  /** `shops`: with valid user coordinates, attach each shop's distance and
      sort by it; otherwise (coordinates missing or not numbers) keep the
      shops in table order without distances. */
  method Shops(p: Primitives, c: Catalog, marketId: Id, userLat: Param<real>, userLon: Param<real>)
    returns (resp: Response<ShopListing>)
    requires p.Valid()
    ensures resp == ShopsAnswer(p, c, marketId, userLat, userLon)
  {
    var found := FindMarket(c.markets, marketId);
    if found.None? {
      return Failure(HTTP_404, "Not found.");
    }
    var listed := ListedShops(c, marketId);
    var entries := Unmeasured(listed);
    if userLat.Given? && userLon.Given? {
      var point := LatLon(userLat.value, userLon.value);
      var withDistance: seq<ShopEntry> := [];
      for i := 0 to |listed|
        invariant withDistance == Measured(p, listed[..i], point)
      {
        withDistance := withDistance + [ShopEntry(listed[i], Some(Distance(p, point, listed[i].location)))];
      }
      assert listed[..|listed|] == listed;
      entries := SortByKey(withDistance, EntryDistance);
    }
    resp := Success(HTTP_200, ShopListing(found.value, entries, |entries|));
  }

  /** The listing holds each active, verified shop of the market exactly
      once per table row and the count is their number. With valid user
      coordinates the entries are the shops with their distances attached, in
      non-decreasing distance; otherwise they are the shops in table order. */
  lemma ShopsListingFacts(p: Primitives, c: Catalog, marketId: Id, userLat: Param<real>, userLon: Param<real>)
    requires p.Valid()
    ensures var r := ShopsAnswer(p, c, marketId, userLat, userLon);
      && (r.Failure? <==> FindMarket(c.markets, marketId).None?)
      && (r.Success? ==> r.body.count == |r.body.shops| == |ListedShops(c, marketId)|)
      && (r.Success? && !(userLat.Given? && userLon.Given?) ==>
            r.body.shops == Unmeasured(ListedShops(c, marketId)))
      && (r.Success? && userLat.Given? && userLon.Given? ==>
            var point := LatLon(userLat.value, userLon.value);
            && multiset(r.body.shops) == multiset(Measured(p, ListedShops(c, marketId), point))
            && SortedBy(r.body.shops, EntryDistance)
            && forall k :: 0 <= k < |r.body.shops| ==>
                 && r.body.shops[k].shop in ListedShops(c, marketId)
                 && r.body.shops[k].distanceMeters == Some(Distance(p, point, r.body.shops[k].shop.location)))
  {
    var r := ShopsAnswer(p, c, marketId, userLat, userLon);
    if r.Success? && userLat.Given? && userLon.Given? {
      var listed := ListedShops(c, marketId);
      var point := LatLon(userLat.value, userLon.value);
      var measured := Measured(p, listed, point);
      SortByKeySortsAndPermutes(measured, EntryDistance);
      var entries := r.body.shops;
      assert entries == SortByKey(measured, EntryDistance);
      forall k | 0 <= k < |entries|
        ensures entries[k].shop in listed
        ensures entries[k].distanceMeters == Some(Distance(p, point, entries[k].shop.location))
      {
        assert entries[k] in multiset(measured);
        var j :| 0 <= j < |measured| && measured[j] == entries[k];
      }
    }
  }

  /* ---------------- detect_zone ---------------- */

  datatype ZoneAnswer = ZoneAnswer(zone: Option<GeofenceZone>, inZone: bool)

  /** `detect_zone`: 400 unless latitude, longitude and market are all given
      and the coordinates convert; otherwise the zone found, if any. */
  method DetectZone(p: Primitives, c: Catalog, lat: Param<real>, lon: Param<real>, marketId: Option<Id>)
    returns (resp: Response<ZoneAnswer>)
    requires p.Valid()
    ensures (lat.Missing? || lon.Missing? || marketId.None?) ==>
              resp == Failure(HTTP_400, "latitude, longitude, and market_id are required")
    ensures !(lat.Missing? || lon.Missing? || marketId.None?) && (lat.Unparsable? || lon.Unparsable?) ==>
              resp.Failure? && resp.code == HTTP_400
    ensures lat.Given? && lon.Given? && marketId.Some? ==>
              var zone := UserZone(p, c, LatLon(lat.value, lon.value), marketId.value);
              resp == Success(HTTP_200, ZoneAnswer(zone, zone.Some?))
  {
    if lat.Missing? || lon.Missing? || marketId.None? {
      return Failure(HTTP_400, "latitude, longitude, and market_id are required");
    }
    if lat.Unparsable? || lon.Unparsable? {
      return Failure(HTTP_400, "Invalid input data: could not convert string to float");
    }
    var zone := DetectUserZone(p, c, LatLon(lat.value, lon.value), marketId.value);
    resp := Success(HTTP_200, ZoneAnswer(zone, zone.Some?));
  }

  /* ---------------- indoor_route ---------------- */

  /** The fields of an indoor route request: `floor` is `int()` of the
      value sent. */
  datatype IndoorRequest = IndoorRequest(
    startX: Param<real>,
    startY: Param<real>,
    endX: Param<real>,
    endY: Param<real>,
    floor: Param<int>,
    marketId: Option<Id>)

  predicate AllPresent(r: IndoorRequest) {
    !r.startX.Missing? && !r.startY.Missing? && !r.endX.Missing? && !r.endY.Missing?
    && !r.floor.Missing? && r.marketId.Some?
  }

  predicate AllGiven(r: IndoorRequest) {
    r.startX.Given? && r.startY.Given? && r.endX.Given? && r.endY.Given? && r.floor.Given? && r.marketId.Some?
  }

  /** `indoor_route`: 400 for a missing field, for a value that does not
      convert, and for the errors of `calculate_indoor_route`. */
  function IndoorRouteAnswer(p: Primitives, c: Catalog, r: IndoorRequest): (resp: Response<IndoorRoute>)
    requires p.Valid()
    ensures resp.Success? <==>
              AllGiven(r)
              && CalculateIndoorRoute(p, c, r.startX.value, r.startY.value, r.endX.value, r.endY.value,
                                      r.floor.value, r.marketId.value).Ok?
    ensures resp.Failure? ==> resp.code == HTTP_400
    ensures !AllPresent(r) ==> resp == Failure(HTTP_400, "Missing required fields")
  {
    if !AllPresent(r) then Failure(HTTP_400, "Missing required fields")
    else if !AllGiven(r) then Failure(HTTP_400, "Invalid input data")
    else
      match CalculateIndoorRoute(p, c, r.startX.value, r.startY.value, r.endX.value, r.endY.value,
                                 r.floor.value, r.marketId.value)
      case Err(e) => Failure(HTTP_400, e)
      case Ok(route) => Success(HTTP_200, route)
  }
}
