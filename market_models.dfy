/** Records of markets/models.py that the navigation core reads and writes:
    their field shapes, choice sets and defaults. Primary keys (UUIDs) are
    natural numbers; instants are microseconds. JSON columns are given the
    shape the navigation code reads from them. */
module MarketModels {
  import opened Wrappers
  import opened Geo
  import Polygon

  type Id = nat
  type Instant = int

  /** `Market.boundary_coordinates`, a nullable JSON column: absent or any
      falsy JSON value, a list of `[x, y]` entries, or some other truthy JSON
      value (an object, a string, a number). */
  datatype Boundary =
    | NoBoundary
    | PointList(points: seq<Polygon.Vertex>)
    | NotAList

  datatype Market = Market(
    id: Id,
    name: string,
    location: LatLon,
    indoorMapEnabled: bool,
    outdoorNavigationEnabled: bool,
    boundary: Boundary)

  /** A market as created with only its required fields. */
  function NewMarket(id: Id, name: string, location: LatLon): (m: Market)
    ensures m.id == id && m.name == name && m.location == location
    ensures !m.indoorMapEnabled && m.outdoorNavigationEnabled
    ensures m.boundary == NoBoundary
  {
    Market(id, name, location, false, true, NoBoundary)
  }

  datatype Shop = Shop(
    id: Id,
    marketId: Id,
    sellerId: Id,
    name: string,
    shopNumber: Option<string>,
    floorLevel: string,
    location: LatLon,
    indoorFloor: int,
    isAccessible: bool,
    hasWheelchairAccess: bool,
    isActive: bool,
    isVerified: bool)

  /** A shop as created with only its required fields. */
  function NewShop(id: Id, marketId: Id, sellerId: Id, name: string, location: LatLon): (s: Shop)
    ensures s.id == id && s.marketId == marketId && s.sellerId == sellerId
    ensures s.name == name && s.location == location && s.shopNumber == None
    ensures s.floorLevel == "Ground Floor" && s.indoorFloor == 0
    ensures s.isAccessible && !s.hasWheelchairAccess
    ensures s.isActive && !s.isVerified
  {
    Shop(id, marketId, sellerId, name, None, "Ground Floor", location, 0, true, false, true, false)
  }

  /** One `[longitude, latitude]` pair of a route's coordinate list. */
  datatype Coordinate = Coordinate(lon: real, lat: real)

  /** One point `{'x', 'y', 'floor'}` of an indoor route. */
  datatype IndoorPoint = IndoorPoint(x: real, y: real, floor: int)

  /** One step of a turn-by-turn instruction list. */
  datatype Instruction = Instruction(
    step: nat,
    text: string,
    distanceMeters: real,
    bearing: real,
    at: Coordinate)

  datatype NavigationRoute = NavigationRoute(
    id: Id,
    marketId: Id,
    startShop: Option<Id>,
    endShop: Option<Id>,
    startLatitude: Option<real>,
    startLongitude: Option<real>,
    endLatitude: Option<real>,
    endLongitude: Option<real>,
    coordinates: seq<Coordinate>,
    indoorCoordinates: Option<seq<IndoorPoint>>,
    distanceMeters: real,
    walkTimeSeconds: int,
    isIndoorRoute: bool,
    isAccessibleRoute: bool,
    instructions: Option<seq<Instruction>>,
    landmarks: Option<seq<string>>)
  {
    /** A route stored without a starting point serves any start. */
    predicate IsGeneric() {
      startLatitude.None? && startLongitude.None?
    }
  }

  /** A route as created with only its required fields. */
  function NewRoute(id: Id, marketId: Id, coordinates: seq<Coordinate>,
                    distanceMeters: real, walkTimeSeconds: int): (r: NavigationRoute)
    ensures r.id == id && r.marketId == marketId && r.coordinates == coordinates
    ensures r.distanceMeters == distanceMeters && r.walkTimeSeconds == walkTimeSeconds
    ensures r.IsGeneric() && r.startShop.None? && r.endShop.None?
    ensures !r.isIndoorRoute && r.isAccessibleRoute
  {
    NavigationRoute(id, marketId, None, None, None, None, None, None, coordinates, None,
                    distanceMeters, walkTimeSeconds, false, true, None, None)
  }

  datatype ZoneType =
    Entrance | Parking | FoodCourt | Restroom | Section | EmergencyExit | LoadingDock

  datatype GeofenceZone = GeofenceZone(
    id: Id,
    marketId: Id,
    name: string,
    zoneType: ZoneType,
    center: LatLon,
    radiusMeters: real,
    isIndoor: bool,
    floorLevel: int,
    isRestricted: bool)

  /** A zone as created with only its required fields: a 10 m circle. */
  function NewZone(id: Id, marketId: Id, name: string, zoneType: ZoneType, center: LatLon): (z: GeofenceZone)
    ensures z.id == id && z.marketId == marketId && z.name == name
    ensures z.zoneType == zoneType && z.center == center
    ensures z.radiusMeters == 10.0
    ensures !z.isIndoor && z.floorLevel == 0 && !z.isRestricted
  {
    GeofenceZone(id, marketId, name, zoneType, center, 10.0, false, 0, false)
  }

  /** The optional readings a location update may carry. */
  datatype LocationExtras = LocationExtras(
    altitude: Option<real>,
    accuracyMeters: Option<real>,
    indoorX: Option<real>,
    indoorY: Option<real>,
    floorLevel: Option<int>,
    batteryLevel: Option<int>,
    signalStrength: Option<int>)

  datatype UserLocation = UserLocation(
    id: Id,
    userId: Id,
    marketId: Option<Id>,
    location: LatLon,
    extras: LocationExtras,
    isIndoor: bool,
    currentShop: Option<Id>,
    currentZone: Option<Id>,
    timestamp: Instant)

  datatype SessionStatus = Active | Completed | Cancelled | Paused

  datatype NavigationMode = Walking | Driving | Accessibility

  datatype NavigationSession = NavigationSession(
    id: Id,
    userId: Id,
    marketId: Id,
    destinationShop: Option<Id>,
    destinationLatitude: Option<real>,
    destinationLongitude: Option<real>,
    destinationName: Option<string>,
    routeCoordinates: Option<seq<Coordinate>>,
    status: SessionStatus,
    start: LatLon,
    currentStepIndex: int,
    distanceRemainingMeters: Option<real>,
    timeRemainingSeconds: Option<int>,
    mode: NavigationMode,
    useIndoorNavigation: bool,
    startedAt: Instant,
    completedAt: Option<Instant>)

  /** A session as created with only its required fields: it starts active,
      at step 0, with nothing remaining or completed recorded. */
  function NewSession(id: Id, userId: Id, marketId: Id, start: LatLon, startedAt: Instant): (s: NavigationSession)
    ensures s.id == id && s.userId == userId && s.marketId == marketId
    ensures s.start == start && s.startedAt == startedAt
    ensures s.status == Active && s.currentStepIndex == 0
    ensures s.distanceRemainingMeters.None? && s.timeRemainingSeconds.None?
    ensures s.completedAt.None?
    ensures s.mode == Walking && !s.useIndoorNavigation
    ensures s.destinationShop.None? && s.destinationLatitude.None? && s.destinationLongitude.None?
  {
    NavigationSession(id, userId, marketId, None, None, None, None, None, Active, start,
                      0, None, None, Walking, false, startedAt, None)
  }

  /** The reference tables the navigation code reads but never writes. */
  datatype Catalog = Catalog(
    markets: seq<Market>,
    shops: seq<Shop>,
    zones: seq<GeofenceZone>,
    routes: seq<NavigationRoute>)
  {
    /** Primary keys are unique, foreign keys point at existing markets, and
        `(market, shop_number)` is unique among shops that have a number. */
    ghost predicate Valid() {
      && (forall i, j :: 0 <= i < j < |markets| ==> markets[i].id != markets[j].id)
      && (forall i, j :: 0 <= i < j < |shops| ==> shops[i].id != shops[j].id)
      && (forall i, j :: 0 <= i < j < |zones| ==> zones[i].id != zones[j].id)
      && (forall i, j :: 0 <= i < j < |routes| ==> routes[i].id != routes[j].id)
      && (forall i :: 0 <= i < |shops| ==> exists k :: 0 <= k < |markets| && markets[k].id == shops[i].marketId)
      && (forall i :: 0 <= i < |zones| ==> exists k :: 0 <= k < |markets| && markets[k].id == zones[i].marketId)
      && (forall i, j ::
            0 <= i < j < |shops| && shops[i].marketId == shops[j].marketId && shops[i].shopNumber.Some?
            ==> shops[i].shopNumber != shops[j].shopNumber)
    }
  }

  /** `Market.objects.get(id=...)`. */
  function FindMarket(markets: seq<Market>, id: Id): (r: Option<Market>)
    ensures r.Some? ==> r.value in markets && r.value.id == id
    ensures r.None? <==> forall k :: 0 <= k < |markets| ==> markets[k].id != id
  {
    if markets == [] then None
    else if markets[0].id == id then Some(markets[0])
    else FindMarket(markets[1..], id)
  }

  /** `Shop.objects.get(id=...)`. */
  function FindShop(shops: seq<Shop>, id: Id): (r: Option<Shop>)
    ensures r.Some? ==> r.value in shops && r.value.id == id
    ensures r.None? <==> forall k :: 0 <= k < |shops| ==> shops[k].id != id
  {
    if shops == [] then None
    else if shops[0].id == id then Some(shops[0])
    else FindShop(shops[1..], id)
  }

  /** `NavigationRoute.objects.filter(end_shop=shop, start_latitude__isnull=True,
      start_longitude__isnull=True).first()`. The model declares no ordering,
      so `.first()` orders the matches by primary key: the answer is the
      matching route of least id, whatever order the table is kept in. */
  function FindGenericRoute(routes: seq<NavigationRoute>, shopId: Id): (r: Option<NavigationRoute>)
    ensures r.Some? ==> r.value in routes && r.value.endShop == Some(shopId) && r.value.IsGeneric()
    ensures r.Some? ==> forall k :: 0 <= k < |routes| && routes[k].endShop == Some(shopId) && routes[k].IsGeneric()
                          ==> r.value.id <= routes[k].id
    ensures r.None? <==> forall k :: 0 <= k < |routes| ==>
              !(routes[k].endShop == Some(shopId) && routes[k].IsGeneric())
  {
    if routes == [] then None
    else
      var rest := FindGenericRoute(routes[1..], shopId);
      if routes[0].endShop == Some(shopId) && routes[0].IsGeneric() && (rest.None? || routes[0].id <= rest.value.id)
      then Some(routes[0])
      else rest
  }
}
