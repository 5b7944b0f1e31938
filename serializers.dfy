/** Request validators of markets/serializers.py. A request arrives as its
    fields, each absent (`None`) or present; a validator either yields the
    validated request with defaults filled in or fails with one message
    (the code answers 400 with the field errors). */
module Serializers {
  import opened Wrappers
  import opened Numeric
  import opened Geo
  import opened MarketModels

  const RequiredMessage := "This field is required."

  /* ---------------- choice sets ---------------- */

  function ModeName(m: NavigationMode): string {
    match m
    case Walking => "walking"
    case Driving => "driving"
    case Accessibility => "accessibility"
  }

  /** The `navigation_mode` choice field. */
  function ParseMode(s: string): (r: Option<NavigationMode>)
    ensures r.Some? <==> s == "walking" || s == "driving" || s == "accessibility"
  {
    if s == "walking" then Some(Walking)
    else if s == "driving" then Some(Driving)
    else if s == "accessibility" then Some(Accessibility)
    else None
  }

  /** Each mode's name parses back to it, and a name that parses is the
      name of what it parses to. */
  lemma ModeChoicesRoundTrip(m: NavigationMode, s: string)
    ensures ParseMode(ModeName(m)) == Some(m)
    ensures ParseMode(s).Some? ==> ModeName(ParseMode(s).value) == s
  {
  }

  function StatusName(st: SessionStatus): string {
    match st
    case Active => "active"
    case Completed => "completed"
    case Cancelled => "cancelled"
    case Paused => "paused"
  }

  /** The `status` choice field of status updates. */
  function ParseStatus(s: string): (r: Option<SessionStatus>)
    ensures r.Some? <==> s == "active" || s == "completed" || s == "cancelled" || s == "paused"
  {
    if s == "active" then Some(Active)
    else if s == "completed" then Some(Completed)
    else if s == "cancelled" then Some(Cancelled)
    else if s == "paused" then Some(Paused)
    else None
  }

  lemma StatusChoicesRoundTrip(st: SessionStatus, s: string)
    ensures ParseStatus(StatusName(st)) == Some(st)
    ensures ParseStatus(s).Some? ==> StatusName(ParseStatus(s).value) == s
  {
  }

  function InvalidChoice(s: string): string {
    "\"" + s + "\" is not a valid choice."
  }

  /* ---------------- character fields ---------------- */

  const BlankMessage := "This field may not be blank."

  function MaxLengthMessage(n: nat): string {
    "Ensure this field has no more than " + DecimalText(n) + " characters."
  }

  /** The characters Python's `str.isspace()` accepts, which are the ones
      `str.strip()` removes: tab to carriage return, the four information
      separators U+001C to U+001F, space, U+0085, U+00A0, and the Unicode
      space and line separators. */
  predicate IsSpace(c: char) {
    || '\t' <= c <= '\r'
    || '\U{001C}' <= c <= ' '
    || c == '\U{0085}' || c == '\U{00A0}' || c == '\U{1680}'
    || '\U{2000}' <= c <= '\U{200A}'
    || c == '\U{2028}' || c == '\U{2029}' || c == '\U{202F}' || c == '\U{205F}' || c == '\U{3000}'
  }

  /** `s` without its leading white space. */
  function StripLeft(s: string): (r: string)
    ensures |r| <= |s| && r == s[|s| - |r|..]
    ensures forall i :: 0 <= i < |s| - |r| ==> IsSpace(s[i])
    ensures r == [] || !IsSpace(r[0])
  {
    if s != [] && IsSpace(s[0]) then StripLeft(s[1..]) else s
  }

  /** `s` without its trailing white space. */
  function StripRight(s: string): (r: string)
    ensures |r| <= |s| && r == s[..|r|]
    ensures forall i :: |r| <= i < |s| ==> IsSpace(s[i])
    ensures r == [] || !IsSpace(r[|r| - 1])
  {
    if s != [] && IsSpace(s[|s| - 1]) then StripRight(s[..|s| - 1]) else s
  }

  /** `str.strip()`: a slice of `s` that neither starts nor ends with
      white space, and that is empty exactly when `s` is all white space. */
  function Strip(s: string): (r: string)
    ensures |r| <= |s|
    ensures r == [] || (!IsSpace(r[0]) && !IsSpace(r[|r| - 1]))
    ensures r == [] <==> forall i :: 0 <= i < |s| ==> IsSpace(s[i])
  {
    var t := StripLeft(s);
    var r := StripRight(t);
    assert r == [] ==> t == [];
    r
  }

  /** A present `CharField` value: refused when blank after stripping, then
      stripped, then checked against the maximum length when there is one. */
  function CharField(raw: string, maxLength: Option<nat>): (r: Result<string>)
    ensures r.Ok? <==> Strip(raw) != "" && (maxLength.Some? ==> |Strip(raw)| <= maxLength.value)
    ensures r.Ok? ==> r.value == Strip(raw) && r.value != ""
    ensures Strip(raw) == "" ==> r == Err(BlankMessage)
  {
    var t := Strip(raw);
    if t == "" then Err(BlankMessage)
    else if maxLength.Some? && |t| > maxLength.value then Err(MaxLengthMessage(maxLength.value))
    else Ok(t)
  }

  /** An optional `CharField`: absent is fine, present must pass. */
  function OptionalCharField(raw: Option<string>): (r: Result<Option<string>>)
    ensures raw.None? ==> r == Ok(None)
    ensures raw.Some? ==> (r.Ok? <==> Strip(raw.value) != "")
    ensures raw.Some? && r.Ok? ==> r.value == Some(Strip(raw.value)) && TruthyString(r.value)
  {
    match raw
    case None => Ok(None)
    case Some(s) =>
      match CharField(s, None)
      case Ok(v) => Ok(Some(v))
      case Err(e) => Err(e)
  }

  /* ---------------- RouteCalculationSerializer ---------------- */

  datatype RouteRequestInput = RouteRequestInput(
    startLatitude: Option<real>,
    startLongitude: Option<real>,
    destinationShopId: Option<Id>,
    destinationLatitude: Option<real>,
    destinationLongitude: Option<real>,
    navigationMode: Option<string>,
    useIndoorNavigation: Option<bool>)

  datatype RouteRequest = RouteRequest(
    start: LatLon,
    destinationShopId: Option<Id>,
    destinationLatitude: Option<real>,
    destinationLongitude: Option<real>,
    mode: NavigationMode,
    useIndoorNavigation: bool)

  const NoDestinationMessage := "Either destination_shop_id or destination coordinates must be provided"

  /** `RouteCalculationSerializer`: the field checks, then `validate`. A shop
      id is always truthy; a coordinate is truthy unless it is 0.0. */
  function ValidateRouteRequest(input: RouteRequestInput): (r: Result<RouteRequest>)
    ensures r.Ok? <==>
              && input.startLatitude.Some? && input.startLongitude.Some?
              && (input.navigationMode.None? || ParseMode(input.navigationMode.value).Some?)
              && (input.destinationShopId.Some?
                  || (TruthyReal(input.destinationLatitude) && TruthyReal(input.destinationLongitude)))
    ensures r.Ok? ==>
              && r.value.start == LatLon(input.startLatitude.value, input.startLongitude.value)
              && r.value.destinationShopId == input.destinationShopId
              && r.value.destinationLatitude == input.destinationLatitude
              && r.value.destinationLongitude == input.destinationLongitude
              && (input.navigationMode.None? ==> r.value.mode == Walking)
              && (input.navigationMode.Some? ==> ModeName(r.value.mode) == input.navigationMode.value)
              && (input.useIndoorNavigation.None? ==> !r.value.useIndoorNavigation)
              && (input.useIndoorNavigation.Some? ==> r.value.useIndoorNavigation == input.useIndoorNavigation.value)
  {
    if input.startLatitude.None? || input.startLongitude.None? then Err(RequiredMessage)
    else if input.navigationMode.Some? && ParseMode(input.navigationMode.value).None? then
      Err(InvalidChoice(input.navigationMode.value))
    else if input.destinationShopId.None?
            && !(TruthyReal(input.destinationLatitude) && TruthyReal(input.destinationLongitude)) then
      Err(NoDestinationMessage)
    else
      Ok(RouteRequest(
        LatLon(input.startLatitude.value, input.startLongitude.value),
        input.destinationShopId, input.destinationLatitude, input.destinationLongitude,
        if input.navigationMode.None? then Walking else ParseMode(input.navigationMode.value).value,
        if input.useIndoorNavigation.None? then false else input.useIndoorNavigation.value))
  }

  /** A destination on the equator or the prime meridian (a coordinate of
      exactly 0.0) counts as missing when no shop is named. */
  lemma ZeroCoordinateCountsAsMissing(input: RouteRequestInput)
    requires input.startLatitude.Some? && input.startLongitude.Some? && input.navigationMode.None?
    requires input.destinationShopId.None?
    requires input.destinationLatitude == Some(0.0) || input.destinationLongitude == Some(0.0)
    ensures ValidateRouteRequest(input) == Err(NoDestinationMessage)
  {
  }

  /* ---------------- LocationUpdateSerializer ---------------- */

  datatype LocationUpdateInput = LocationUpdateInput(
    latitude: Option<real>,
    longitude: Option<real>,
    extras: LocationExtras,
    marketId: Option<Id>)

  datatype LocationUpdate = LocationUpdate(point: LatLon, extras: LocationExtras, marketId: Option<Id>)

  /** An optional percentage field: absent, or within [0, 100]. */
  predicate PercentOrAbsent(o: Option<int>) {
    o.None? || 0 <= o.value <= 100
  }

  function RangeMessage(v: int): string {
    if v < 0 then "Ensure this value is greater than or equal to 0."
    else "Ensure this value is less than or equal to 100."
  }

  /** `LocationUpdateSerializer`. */
  function ValidateLocationUpdate(input: LocationUpdateInput): (r: Result<LocationUpdate>)
    ensures r.Ok? <==>
              && input.latitude.Some? && input.longitude.Some?
              && PercentOrAbsent(input.extras.batteryLevel) && PercentOrAbsent(input.extras.signalStrength)
    ensures r.Ok? ==>
              && r.value.point == LatLon(input.latitude.value, input.longitude.value)
              && r.value.extras == input.extras && r.value.marketId == input.marketId
    ensures r.Ok? ==> PercentOrAbsent(r.value.extras.batteryLevel) && PercentOrAbsent(r.value.extras.signalStrength)
  {
    if input.latitude.None? || input.longitude.None? then Err(RequiredMessage)
    else if !PercentOrAbsent(input.extras.batteryLevel) then Err(RangeMessage(input.extras.batteryLevel.value))
    else if !PercentOrAbsent(input.extras.signalStrength) then Err(RangeMessage(input.extras.signalStrength.value))
    else Ok(LocationUpdate(LatLon(input.latitude.value, input.longitude.value), input.extras, input.marketId))
  }

  /* ---------------- NearbyShopsSerializer ---------------- */

  datatype NearbyInput = NearbyInput(
    latitude: Option<real>,
    longitude: Option<real>,
    radiusMeters: Option<int>,
    marketId: Option<Id>)

  datatype NearbyRequest = NearbyRequest(point: LatLon, radiusMeters: int, marketId: Id)

  /** `NearbyShopsSerializer`: the radius defaults to 100 and lies in
      [1, 1000]; the market is required. */
  function ValidateNearby(input: NearbyInput): (r: Result<NearbyRequest>)
    ensures r.Ok? <==>
              && input.latitude.Some? && input.longitude.Some? && input.marketId.Some?
              && (input.radiusMeters.None? || 1 <= input.radiusMeters.value <= 1000)
    ensures r.Ok? ==> 1 <= r.value.radiusMeters <= 1000 && r.value.marketId == input.marketId.value
    ensures r.Ok? ==> r.value.radiusMeters == if input.radiusMeters.None? then 100 else input.radiusMeters.value
  {
    if input.latitude.None? || input.longitude.None? || input.marketId.None? then Err(RequiredMessage)
    else if input.radiusMeters.Some? && input.radiusMeters.value < 1 then
      Err("Ensure this value is greater than or equal to 1.")
    else if input.radiusMeters.Some? && input.radiusMeters.value > 1000 then
      Err("Ensure this value is less than or equal to 1000.")
    else
      Ok(NearbyRequest(LatLon(input.latitude.value, input.longitude.value),
                       if input.radiusMeters.None? then 100 else input.radiusMeters.value,
                       input.marketId.value))
  }

  /* ---------------- NavigationStatusSerializer ---------------- */

  datatype StatusInput = StatusInput(
    sessionId: Option<Id>,
    currentLatitude: Option<real>,
    currentLongitude: Option<real>,
    currentStepIndex: Option<int>,
    status: Option<string>)

  datatype StatusUpdate = StatusUpdate(sessionId: Id, current: LatLon, stepIndex: int, status: SessionStatus)

  /** `NavigationStatusSerializer`: the step defaults to 0 and the status to
      active; only the four session statuses are accepted. */
  function ValidateStatus(input: StatusInput): (r: Result<StatusUpdate>)
    ensures r.Ok? <==>
              && input.sessionId.Some? && input.currentLatitude.Some? && input.currentLongitude.Some?
              && (input.status.None? || ParseStatus(input.status.value).Some?)
    ensures r.Ok? ==>
              && r.value.sessionId == input.sessionId.value
              && r.value.current == LatLon(input.currentLatitude.value, input.currentLongitude.value)
              && r.value.stepIndex == (if input.currentStepIndex.None? then 0 else input.currentStepIndex.value)
              && (input.status.None? ==> r.value.status == Active)
              && (input.status.Some? ==> StatusName(r.value.status) == input.status.value)
  {
    if input.sessionId.None? || input.currentLatitude.None? || input.currentLongitude.None? then
      Err(RequiredMessage)
    else if input.status.Some? && ParseStatus(input.status.value).None? then
      Err(InvalidChoice(input.status.value))
    else
      Ok(StatusUpdate(
        input.sessionId.value,
        LatLon(input.currentLatitude.value, input.currentLongitude.value),
        if input.currentStepIndex.None? then 0 else input.currentStepIndex.value,
        if input.status.None? then Active else ParseStatus(input.status.value).value))
  }

  /* ---------------- WithdrawRequestSerializer ---------------- */

  /** A `DecimalField(max_digits=10, decimal_places=2)` holds at most eight
      whole digits: in cents, a magnitude below 10^10. */
  const DecimalBound: int := 10_000_000_000

  predicate FitsDecimalField(cents: int) {
    -DecimalBound < cents < DecimalBound
  }

  const DecimalFieldMessage := "Ensure that there are no more than 8 digits before the decimal point."
  const NonPositiveAmountMessage := "Amount must be greater than zero."
  const NoWalletMessage := "Wallet not found for this seller."

  function InsufficientBalanceMessage(balance: int): string {
    "Insufficient balance. Available: " + SignedCentsText(balance)
  }

  /** `str()` of a two-place amount of either sign. */
  function SignedCentsText(cents: int): string {
    if cents < 0 then "-" + CentsText(-cents) else CentsText(cents)
  }

  /** `WithdrawRequestSerializer` with `validate_amount`, given the amount in
      cents and the balance of the requesting seller's wallet, if any. */
  function ValidateWithdrawAmount(amount: int, walletBalance: Option<int>): (r: Result<nat>)
    ensures r.Ok? <==>
              FitsDecimalField(amount) && amount > 0 && walletBalance.Some? && amount <= walletBalance.value
    ensures r.Ok? ==> r.value == amount
    ensures FitsDecimalField(amount) && amount <= 0 ==> r == Err(NonPositiveAmountMessage)
    ensures !FitsDecimalField(amount) ==> r == Err(DecimalFieldMessage)
    ensures FitsDecimalField(amount) && amount > 0 && walletBalance.None? ==>
              r == Err(NoWalletMessage)
    ensures FitsDecimalField(amount) && amount > 0 && walletBalance.Some? && amount > walletBalance.value ==>
              r == Err(InsufficientBalanceMessage(walletBalance.value))
  {
    if !FitsDecimalField(amount) then Err(DecimalFieldMessage)
    else if amount <= 0 then Err(NonPositiveAmountMessage)
    else if walletBalance.None? then Err(NoWalletMessage)
    else if amount > walletBalance.value then
      Err(InsufficientBalanceMessage(walletBalance.value))
    else Ok(amount)
  }
}
