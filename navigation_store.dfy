/** The navigation endpoints of `NavigationViewSet` (markets/views.py) over a
    store that holds the reference catalog and the two tables they write:
    user locations and navigation sessions. The requesting user is a
    parameter; ids of new rows and the current instant are parameters too. */
module NavigationStore {
  import opened Wrappers
  import opened Numeric
  import opened Geo
  import opened Collections
  import opened MarketModels
  import opened NavigationService
  import opened Serializers

  /* ---------------- the session state machine ---------------- */

  /** What `update_navigation_status` does to a session before saving it:
      step and status are overwritten, `completed_at` is stamped when the new
      status is completed, and the remaining distance and time are
      recomputed when both destination coordinates are truthy. */
  function ApplyStatusUpdate(p: Primitives, s: NavigationSession, u: StatusUpdate, now: Instant): NavigationSession
    requires p.Valid()
  {
    var stamped := s.(currentStepIndex := u.stepIndex, status := u.status,
                      completedAt := if u.status == Completed then Some(now) else s.completedAt);
    if TruthyReal(s.destinationLatitude) && TruthyReal(s.destinationLongitude) then
      var d := Distance(p, u.current, LatLon(s.destinationLatitude.value, s.destinationLongitude.value));
      stamped.(distanceRemainingMeters := Some(d), timeRemainingSeconds := Some(Trunc(d / 1.4)))
    else stamped
  }

  /** Step and status take the requested values whatever the session's
      status was; identity, owner, market and destination never change;
      `completed_at` is set after the update exactly when it was set before
      or the new status is completed, and only a completion changes it. */
  lemma StatusUpdateEffect(p: Primitives, s: NavigationSession, u: StatusUpdate, now: Instant)
    requires p.Valid()
    ensures var r := ApplyStatusUpdate(p, s, u, now);
      && r.status == u.status && r.currentStepIndex == u.stepIndex
      && r.id == s.id && r.userId == s.userId && r.marketId == s.marketId
      && r.destinationShop == s.destinationShop
      && r.destinationLatitude == s.destinationLatitude && r.destinationLongitude == s.destinationLongitude
      && r.routeCoordinates == s.routeCoordinates && r.startedAt == s.startedAt
      && (r.completedAt.Some? <==> s.completedAt.Some? || u.status == Completed)
      && (u.status != Completed ==> r.completedAt == s.completedAt)
      && (u.status == Completed ==> r.completedAt == Some(now))
  {
  }

  /** The remaining distance and time change only for a session with both
      destination coordinates truthy; then the distance is measured from the
      reported position and the time is its whole seconds at 1.4 m/s. */
  lemma RemainingDistanceRule(p: Primitives, s: NavigationSession, u: StatusUpdate, now: Instant)
    requires p.Valid()
    ensures var r := ApplyStatusUpdate(p, s, u, now);
      && (!(TruthyReal(s.destinationLatitude) && TruthyReal(s.destinationLongitude)) ==>
            r.distanceRemainingMeters == s.distanceRemainingMeters
            && r.timeRemainingSeconds == s.timeRemainingSeconds)
      && (TruthyReal(s.destinationLatitude) && TruthyReal(s.destinationLongitude) ==>
            var d := Distance(p, u.current, LatLon(s.destinationLatitude.value, s.destinationLongitude.value));
            && r.distanceRemainingMeters == Some(d)
            && r.timeRemainingSeconds.Some? && r.timeRemainingSeconds.value >= 0
            && r.timeRemainingSeconds.value as real * 1.4 <= d < (r.timeRemainingSeconds.value + 1) as real * 1.4)
  {
    if TruthyReal(s.destinationLatitude) && TruthyReal(s.destinationLongitude) {
      var d := Distance(p, u.current, LatLon(s.destinationLatitude.value, s.destinationLongitude.value));
      var t := Trunc(d / 1.4);
      assert t as real <= d / 1.4 < t as real + 1.0;
    }
  }

  /** One status update applied at its instant. */
  datatype TimedUpdate = TimedUpdate(update: StatusUpdate, at: Instant)

  /** A run of status updates applied in order. */
  function ApplyAll(p: Primitives, s: NavigationSession, us: seq<TimedUpdate>): NavigationSession
    requires p.Valid()
  {
    if us == [] then s
    else ApplyStatusUpdate(p, ApplyAll(p, s, us[..|us| - 1]), us[|us| - 1].update, us[|us| - 1].at)
  }

  /** A session stored without destination coordinates (as every session
      started for a shop without them is) never gets a remaining distance,
      however many updates it receives; and once completed it stays stamped. */
  lemma {:induction false} UpdatesPreserveUnsetFields(p: Primitives, s: NavigationSession, us: seq<TimedUpdate>)
    requires p.Valid()
    ensures s.destinationLatitude.None? && s.distanceRemainingMeters.None? ==>
              ApplyAll(p, s, us).distanceRemainingMeters.None?
    ensures s.completedAt.Some? ==> ApplyAll(p, s, us).completedAt.Some?
    ensures ApplyAll(p, s, us).destinationLatitude == s.destinationLatitude
  {
    if us != [] {
      UpdatesPreserveUnsetFields(p, s, us[..|us| - 1]);
    }
  }

  /** Nothing guards the terminal states: a completed session updated with
      status active becomes active again and keeps its completion stamp. */
  lemma CompletedSessionCanBeReopened(p: Primitives, s: NavigationSession, u: StatusUpdate, now: Instant)
    requires p.Valid() && s.status == Completed && s.completedAt.Some? && u.status == Active
    ensures ApplyStatusUpdate(p, s, u, now).status == Active
    ensures ApplyStatusUpdate(p, s, u, now).completedAt == s.completedAt
    ensures !Consistent(ApplyStatusUpdate(p, s, u, now))
  {
  }

  /** Completed and cancelled sessions as final states. */
  predicate IsTerminal(st: SessionStatus) {
    st == Completed || st == Cancelled
  }

  /** A completion stamp belongs to a completed session. */
  predicate Consistent(s: NavigationSession) {
    s.completedAt.Some? ==> s.status == Completed
  }

  /** A strengthened update that leaves completed and cancelled sessions as
      they are and otherwise applies the update of the code. */
  function ApplyGuardedUpdate(p: Primitives, s: NavigationSession, u: StatusUpdate, now: Instant): NavigationSession
    requires p.Valid()
  {
    if IsTerminal(s.status) then s else ApplyStatusUpdate(p, s, u, now)
  }

  /** Under the guard a terminal status is final and consistency is kept. */
  lemma GuardedUpdateKeepsTerminalStates(p: Primitives, s: NavigationSession, u: StatusUpdate, now: Instant)
    requires p.Valid()
    ensures IsTerminal(s.status) ==> ApplyGuardedUpdate(p, s, u, now) == s
    ensures !IsTerminal(s.status) ==> ApplyGuardedUpdate(p, s, u, now) == ApplyStatusUpdate(p, s, u, now)
    ensures Consistent(s) ==> Consistent(ApplyGuardedUpdate(p, s, u, now))
  {
  }

  /** The session `start_navigation` creates. */
  function StartedSession(id: Id, userId: Id, marketId: Id, req: RouteRequest, shop: Option<Id>,
                          name: string, coordinates: seq<Coordinate>, now: Instant): NavigationSession
  {
    NewSession(id, userId, marketId, req.start, now).(
      destinationShop := shop,
      destinationLatitude := req.destinationLatitude,
      destinationLongitude := req.destinationLongitude,
      destinationName := Some(name),
      routeCoordinates := Some(coordinates),
      mode := req.mode,
      useIndoorNavigation := req.useIndoorNavigation)
  }

  /** The name given to a raw-coordinate destination. */
  function CoordinateLabel(p: Primitives, lat: real, lon: real): string {
    "Location (" + p.floatText(lat) + ", " + p.floatText(lon) + ")"
  }

  /** The 201 body of `start_navigation`. */
  datatype Started = Started(
    sessionId: Id,
    route: Route,
    mode: NavigationMode,
    useIndoorNavigation: bool,
    startedAt: Instant)

  /** What `start_navigation` answers and the session it creates, if any. A
      shop destination takes the session's market from the shop; a
      coordinate destination from the nearest-market scan of the
      destination, and with no market within 5 km the insert of a session
      without a market fails. */
  function StartOutcome(p: Primitives, c: Catalog, userId: Id, input: RouteRequestInput,
                        id: Id, now: Instant): (Response<Started>, Option<NavigationSession>)
    requires p.Valid()
  {
    match ValidateRouteRequest(input)
    case Err(e) => (Failure(HTTP_400, e), None)
    case Ok(req) =>
      if req.destinationShopId.Some? then
        var route := RouteToShop(p, c, req.start, req.destinationShopId.value);
        if route.Err? then (Failure(HTTP_400, route.error), None)
        else
          var shop := route.value.destination;
          var s := StartedSession(id, userId, shop.marketId, req, Some(shop.id), shop.name,
                                  route.value.coordinates, now);
          (Success(HTTP_201, Started(id, route.value, req.mode, req.useIndoorNavigation, now)), Some(s))
      else
        var dest := LatLon(req.destinationLatitude.value, req.destinationLongitude.value);
        var destName := CoordinateLabel(p, dest.lat, dest.lon);
        var coordinates := [Coordinate(req.start.lon, req.start.lat), Coordinate(dest.lon, dest.lat)];
        var route := PointRoute(dest, destName, Distance(p, req.start, dest), coordinates);
        match NearestMarket(p, c.markets, dest, 5.0)
        case None => (Failure(HTTP_500, "NOT NULL constraint failed: market"), None)
        case Some(m) =>
          var s := StartedSession(id, userId, m.id, req, None, destName, coordinates, now);
          (Success(HTTP_201, Started(id, route, req.mode, req.useIndoorNavigation, now)), Some(s))
  }

  /** A session is created exactly when the answer is 201, and it starts
      active at step 0 with nothing remaining or completed. A coordinate
      destination stores the two-point route from the start, no shop, and
      the nearest market within 5 km of the destination; a shop destination
      stores the shop and its market. */
  lemma StartOutcomeFacts(p: Primitives, c: Catalog, userId: Id, input: RouteRequestInput, id: Id, now: Instant)
    requires p.Valid()
    ensures var (resp, created) := StartOutcome(p, c, userId, input, id, now);
      && (created.Some? <==> resp.Success?)
      && (resp.Success? ==> resp.code == HTTP_201 && resp.body.sessionId == id)
      && (resp.Failure? ==> resp.code == HTTP_400 || resp.code == HTTP_500)
      && (created.Some? ==>
            var s := created.value;
            && s.id == id && s.userId == userId && s.status == Active && s.currentStepIndex == 0
            && s.distanceRemainingMeters.None? && s.completedAt.None? && s.startedAt == now
            && Consistent(s))
      && (created.Some? && input.destinationShopId.None? ==>
            var s := created.value;
            && s.destinationShop.None?
            && s.routeCoordinates == Some([Coordinate(input.startLongitude.value, input.startLatitude.value),
                                           Coordinate(input.destinationLongitude.value, input.destinationLatitude.value)])
            && var nearest := NearestMarket(p, c.markets,
                                            LatLon(input.destinationLatitude.value, input.destinationLongitude.value), 5.0);
               nearest.Some? && nearest.value.id == s.marketId)
      && (created.Some? && input.destinationShopId.Some? ==>
            var s := created.value;
            var shop := FindShop(c.shops, input.destinationShopId.value);
            && shop.Some? && s.destinationShop == Some(shop.value.id) && s.marketId == shop.value.marketId)
  {
  }

  /** The first session with the given id that belongs to the user. */
  function OwnedSessionIndex(sessions: seq<NavigationSession>, id: Id, userId: Id): (r: Option<nat>)
    ensures r.Some? ==> r.value < |sessions| && sessions[r.value].id == id && sessions[r.value].userId == userId
    ensures r.None? <==> forall k :: 0 <= k < |sessions| ==> !(sessions[k].id == id && sessions[k].userId == userId)
  {
    if sessions == [] then None
    else
      var prev := OwnedSessionIndex(sessions[..|sessions| - 1], id, userId);
      var last := sessions[|sessions| - 1];
      if prev.None? && last.id == id && last.userId == userId then Some(|sessions| - 1) else prev
  }

  /** The store the navigation endpoints read and write. */
  class NavigationDb {
    const catalog: Catalog
    /** The ids of existing users. */
    const users: seq<Id>
    var locations: seq<UserLocation>
    var sessions: seq<NavigationSession>

    constructor (catalog: Catalog, users: seq<Id>)
      ensures this.catalog == catalog && this.users == users
      ensures locations == [] && sessions == []
    {
      this.catalog := catalog;
      this.users := users;
      locations := [];
      sessions := [];
    }

    /** `update_user_location`: an unknown user is an error and stores
        nothing; otherwise the derived record is appended. */
    method UpdateUserLocation(p: Primitives, userId: Id, point: LatLon, marketId: Option<Id>,
                              autoDetect: bool, extras: LocationExtras, id: Id, now: Instant)
      returns (r: Result<UserLocation>)
      requires p.Valid()
      modifies this
      ensures userId !in users ==> r == Err("User not found") && locations == old(locations)
      ensures userId in users ==>
                && r == Ok(LocationRecord(p, catalog, id, userId, point, marketId, autoDetect, extras, now))
                && locations == old(locations) + [r.value]
      ensures sessions == old(sessions)
    {
      if userId !in users {
        return Err("User not found");
      }
      var mid := marketId;
      if marketId.None? && autoDetect {
        var market := DetectNearestMarket(p, catalog.markets, point, 5.0);
        mid := if market.Some? then Some(market.value.id) else None;
      }
      var isIndoor := false;
      var zone: Option<GeofenceZone> := None;
      var shop: Option<Id> := None;
      if mid.Some? {
        isIndoor := IsIndoorLocation(catalog, point, mid.value);
        zone := DetectUserZone(p, catalog, point, mid.value);
        var nearby := FindNearbyShops(p, catalog, point, mid.value, 10.0);
        if nearby != [] {
          shop := Some(nearby[0].shop.id);
        }
      }
      var market: Option<Id> := None;
      if mid.Some? && FindMarket(catalog.markets, mid.value).Some? {
        market := mid;
      }
      var location := UserLocation(id, userId, market, point, extras, isIndoor, shop,
                                   if zone.None? then None else Some(zone.value.id), now);
      locations := locations + [location];
      r := Ok(location);
    }

    /** `update_location`: validate, then record; an unknown user is a 400. */
    method UpdateLocation(p: Primitives, userId: Id, input: LocationUpdateInput, id: Id, now: Instant)
      returns (resp: Response<UserLocation>)
      requires p.Valid()
      modifies this
      ensures ValidateLocationUpdate(input).Err? ==>
                resp == Failure(HTTP_400, ValidateLocationUpdate(input).error) && locations == old(locations)
      ensures ValidateLocationUpdate(input).Ok? && userId !in users ==>
                resp == Failure(HTTP_400, "User not found") && locations == old(locations)
      ensures ValidateLocationUpdate(input).Ok? && userId in users ==>
                var u := ValidateLocationUpdate(input).value;
                && resp == Success(HTTP_200, LocationRecord(p, catalog, id, userId, u.point, u.marketId, true, u.extras, now))
                && locations == old(locations) + [resp.body]
      ensures sessions == old(sessions)
    {
      var v := ValidateLocationUpdate(input);
      if v.Err? {
        return Failure(HTTP_400, v.error);
      }
      var r := UpdateUserLocation(p, userId, v.value.point, v.value.marketId, true, v.value.extras, id, now);
      if r.Err? {
        return Failure(HTTP_400, r.error);
      }
      resp := Success(HTTP_200, r.value);
    }

    /** `start_navigation`: validate, build the route, and store the new
        session when the answer is 201. */
    method StartNavigation(p: Primitives, userId: Id, input: RouteRequestInput, id: Id, now: Instant)
      returns (resp: Response<Started>)
      requires p.Valid()
      modifies this
      ensures resp == StartOutcome(p, catalog, userId, input, id, now).0
      ensures var created := StartOutcome(p, catalog, userId, input, id, now).1;
                sessions == old(sessions) + (if created.Some? then [created.value] else [])
      ensures locations == old(locations)
    {
      var v := ValidateRouteRequest(input);
      if v.Err? {
        return Failure(HTTP_400, v.error);
      }
      var req := v.value;
      if req.destinationShopId.Some? {
        var route := CalculateRouteToShop(p, catalog, req.start, req.destinationShopId.value);
        if route.Err? {
          return Failure(HTTP_400, route.error);
        }
        var shop := route.value.destination;
        var s := StartedSession(id, userId, shop.marketId, req, Some(shop.id), shop.name,
                                route.value.coordinates, now);
        sessions := sessions + [s];
        resp := Success(HTTP_201, Started(id, route.value, req.mode, req.useIndoorNavigation, now));
      } else {
        var dest := LatLon(req.destinationLatitude.value, req.destinationLongitude.value);
        var destName := CoordinateLabel(p, dest.lat, dest.lon);
        var coordinates := [Coordinate(req.start.lon, req.start.lat), Coordinate(dest.lon, dest.lat)];
        var route := PointRoute(dest, destName, Distance(p, req.start, dest), coordinates);
        var market := DetectNearestMarket(p, catalog.markets, dest, 5.0);
        if market.None? {
          return Failure(HTTP_500, "NOT NULL constraint failed: market");
        }
        var s := StartedSession(id, userId, market.value.id, req, None, destName, coordinates, now);
        sessions := sessions + [s];
        resp := Success(HTTP_201, Started(id, route, req.mode, req.useIndoorNavigation, now));
      }
    }

    /** `update_navigation_status`: only a session with the given id that
        belongs to the requester is loaded; it is overwritten in place. */
    method UpdateNavigationStatus(p: Primitives, userId: Id, input: StatusInput, now: Instant)
      returns (resp: Response<NavigationSession>)
      requires p.Valid()
      modifies this
      ensures ValidateStatus(input).Err? ==>
                resp == Failure(HTTP_400, ValidateStatus(input).error) && sessions == old(sessions)
      ensures ValidateStatus(input).Ok? ==>
                var u := ValidateStatus(input).value;
                match OwnedSessionIndex(old(sessions), u.sessionId, userId)
                case None =>
                  resp == Failure(HTTP_404, "Navigation session not found") && sessions == old(sessions)
                case Some(k) =>
                  var updated := ApplyStatusUpdate(p, old(sessions)[k], u, now);
                  resp == Success(HTTP_200, updated) && sessions == old(sessions)[k := updated]
      ensures locations == old(locations)
    {
      var v := ValidateStatus(input);
      if v.Err? {
        return Failure(HTTP_400, v.error);
      }
      var found := OwnedSessionIndex(sessions, v.value.sessionId, userId);
      if found.None? {
        return Failure(HTTP_404, "Navigation session not found");
      }
      var k := found.value;
      var updated := ApplyStatusUpdate(p, sessions[k], v.value, now);
      sessions := sessions[k := updated];
      resp := Success(HTTP_200, updated);
    }

    /** A strengthened `update_navigation_status` under which completed and
        cancelled sessions are final: such a session is answered as it is
        and not written. */
    method UpdateNavigationStatusGuarded(p: Primitives, userId: Id, input: StatusInput, now: Instant)
      returns (resp: Response<NavigationSession>)
      requires p.Valid()
      modifies this
      ensures ValidateStatus(input).Err? ==>
                resp == Failure(HTTP_400, ValidateStatus(input).error) && sessions == old(sessions)
      ensures ValidateStatus(input).Ok? ==>
                var u := ValidateStatus(input).value;
                match OwnedSessionIndex(old(sessions), u.sessionId, userId)
                case None =>
                  resp == Failure(HTTP_404, "Navigation session not found") && sessions == old(sessions)
                case Some(k) =>
                  var updated := ApplyGuardedUpdate(p, old(sessions)[k], u, now);
                  resp == Success(HTTP_200, updated) && sessions == old(sessions)[k := updated]
      ensures locations == old(locations)
    {
      var v := ValidateStatus(input);
      if v.Err? {
        return Failure(HTTP_400, v.error);
      }
      var found := OwnedSessionIndex(sessions, v.value.sessionId, userId);
      if found.None? {
        return Failure(HTTP_404, "Navigation session not found");
      }
      var k := found.value;
      if IsTerminal(sessions[k].status) {
        return Success(HTTP_200, sessions[k]);
      }
      var updated := ApplyStatusUpdate(p, sessions[k], v.value, now);
      sessions := sessions[k := updated];
      resp := Success(HTTP_200, updated);
    }

    /** `active_session`: `get(user=..., status='active')` answers the one
        active session of the user, 404 when there is none, and fails with
        500 when there are several. */
    function ActiveSession(userId: Id): (r: Response<NavigationSession>)
      reads this
      ensures r.Success? ==>
                && r.code == HTTP_200 && r.body in sessions
                && r.body.userId == userId && r.body.status == Active
                && forall k :: 0 <= k < |sessions| && sessions[k].userId == userId && sessions[k].status == Active
                     ==> sessions[k] == r.body
      ensures r == Failure(HTTP_404, "No active navigation session") <==>
                forall k :: 0 <= k < |sessions| ==> !(sessions[k].userId == userId && sessions[k].status == Active)
      ensures r.Failure? ==> r.code == HTTP_404 || r.code == HTTP_500
    {
      var active := Filter(sessions, (s: NavigationSession) => s.userId == userId && s.status == Active);
      if |active| == 0 then Failure(HTTP_404, "No active navigation session")
      else if |active| == 1 then Success(HTTP_200, active[0])
      else Failure(HTTP_500, "MultipleObjectsReturned")
    }
  }

  /** Starting a second navigation while one is active leaves two active
      sessions, after which `active_session` fails with 500 for that user. */
  lemma TwoActiveSessionsBreakLookup(db: NavigationDb, userId: Id, i: nat, j: nat)
    requires i < j < |db.sessions|
    requires db.sessions[i].userId == userId && db.sessions[i].status == Active
    requires db.sessions[j].userId == userId && db.sessions[j].status == Active
    requires db.sessions[i] != db.sessions[j]
    ensures db.ActiveSession(userId) == Failure(HTTP_500, "MultipleObjectsReturned")
  {
  }
}
