# iMarket navigation core, in Dafny

iMarket is a Django marketplace whose markets have shops, geofenced zones, stored routes and
(optionally) an indoor map. This project models its core and proves properties of the model:

- the geo-navigation engine (`NavigationService`, `IndoorNavigationService`);
- the navigation, market and seller endpoints that use it, with the request validators they
  call and the defaults of the records they create;
- the one-time-code (OTP) verification flow of the user accounts;
- wallet funding and the transaction summary.

The source's division is kept, one module per concern:

| file | module | models |
|---|---|---|
| wrappers.dfy | `Wrappers` | `Option`, `Result`, HTTP responses, Python truthiness |
| collections.dfy | `Collections` | the ORM's `filter`, and the stable sort behind `list.sort(key=)` and `order_by` |
| numeric.dfy | `Numeric` | `round` (half to even), `round(x, n)`, `int()`, float `%`, `str()` of integers and two-place decimals |
| geo.dfy | `Geo` | distance, bearing and compass direction; the floating-point primitives are a parameter |
| polygon.dfy | `Polygon` | the ray-casting point-in-polygon test, as a loop |
| market_models.dfy | `MarketModels` | markets, shops, routes, zones, locations and sessions, with their defaults |
| navigation_service.dfy | `NavigationService` | the navigation engine |
| serializers.dfy | `Serializers` | the navigation and withdrawal validators, and DRF's character field |
| navigation_store.dfy | `NavigationStore` | `NavigationViewSet` over a class holding the location and session tables |
| market_views.dfy | `MarketViews` | `pin_search`, `shops`, `detect_zone`, `indoor_route` |
| seller_dashboard.dfy | `SellerDashboard` | seller withdrawals, order status updates and order creation, over a class of tables |
| user_models.dfy | `Users` | user roles, OTP records, their expiry, attempts and the verification flags |
| otp_views.dfy | `OtpViews` | requesting and verifying codes, code login, password reset, over a class of tables |
| transactions.dfy | `Transactions` | wallets, funding, the per-type summary and the newest-first listing |

Conventions:

- The database is a `seq` per table, held in a class's fields.
- "Change the instance, then `save()`" replaces the row.
- `get(...)` is a first-match lookup; the keys it looks up are unique in the source's schema.
- `filter(...).first()` on a model without an ordering takes the match of least primary key.
- Money is integer cents (every amount field has two decimal places).
- Time is integer microseconds.
- New ids, the clock, the generated OTP code and whether an e-mail went out are parameters.
- The requesting user is a parameter.
- The floating-point functions (`math` trigonometry, `math.sqrt`, `str()` of a float) are fields
  of a `Geo.Primitives` value. The model assumes only the facts in `Primitives.Valid()`:
  distances are non-negative, the distance from a point to itself is 0, `atan2` gives degrees
  in [-180, 180], and `sqrt` is a non-negative square root.

Where the source has a loop or updates state, the model does too: a `method` with invariants,
proved equal to a specification function or stating the new state of its class. The properties
are proved about those functions.

## Model

| member | source | states |
|---|---|---|
| Collections.Filter | markets/navigation_utils.py:37 | every row kept is a row of the table that satisfies the condition, and every row that satisfies it is kept |
| Collections.FilterCounts | markets/navigation_utils.py:37 | filtering keeps each accepted row as many times as the table holds it and drops every other row |
| Collections.FilterAppend | markets/navigation_utils.py:37 | filtering a concatenation filters each part, so table order is kept |
| Collections.SortByKeySortsAndPermutes | markets/navigation_utils.py:57 | sorting by a key gives a non-decreasing order that is a permutation of the input |
| Collections.SortByKeyHeadIsLeast | markets/navigation_utils.py:57 | the first element after sorting is an input element and no input element has a smaller key |
| Numeric.RoundHalfEven | markets/navigation_utils.py:253-257 | `round` picks an integer within 0.5 of its argument, and the even one on a tie |
| Numeric.RoundHalfEvenUnique | markets/navigation_utils.py:253-257 | those two properties determine the result: exactly one integer has them |
| Numeric.Round2 | markets/navigation_utils.py:48 | `round(x, 2)` is within 0.005 of `x` and a whole number of hundredths |
| Numeric.Round1 | markets/navigation_utils.py:430 | `round(x, 1)` is within 0.05 of `x` and a whole number of tenths |
| Numeric.Trunc | markets/navigation_utils.py:404 | `int()` on a float truncates toward zero, for both signs |
| Numeric.FloorMod | markets/navigation_utils.py:245 | the float `%` with a positive divisor lies in [0, m) and leaves the quotient's floor as the rest |
| Numeric.DecimalText | transactions/views.py:61 | `str(n)` is a non-empty run of decimal digits without a leading zero |
| Numeric.DecimalTextValue | transactions/views.py:61 | the digits of `str(n)` read back as `n` |
| Numeric.DecimalTextInjective | transactions/views.py:61 | different numbers have different texts |
| Numeric.CentsText | markets/views.py:470 | `str` of a two-place decimal ends in a point and two digits |
| Numeric.CentsTextValue | markets/views.py:470 | the digits before the point spell the whole units, the two after it the cents, and together they give back the amount |
| Numeric.CentsTextInjective | markets/views.py:470 | different amounts have different texts |
| Geo.Distance | markets/navigation_utils.py:16-30 | `calculate_distance` is never negative |
| Geo.NormalizeBearing | markets/navigation_utils.py:245-247 | `(bearing + 360) % 360` lies in [0, 360) |
| Geo.NormalizeBearingOfAtan2 | markets/navigation_utils.py:233-247 | on `atan2`'s output range the normalisation adds 360 to negative angles and keeps the others |
| Geo.Bearing | markets/navigation_utils.py:233-247 | `_calculate_bearing` lies in [0, 360) and is the `atan2` angle or that angle plus 360 |
| Geo.DirectionIndex | markets/navigation_utils.py:250-257 | `round(bearing / 45) % 8` always indexes the eight directions |
| Geo.BearingToDirection | markets/navigation_utils.py:250-257 | the direction chosen is the compass point at 45 times that index |
| Geo.BearingToDirectionIsNearest | markets/navigation_utils.py:250-257 | for a bearing in [0, 360) the direction named is within 22.5 degrees of it, going round the circle |
| Polygon.PointInPolygon | markets/navigation_utils.py:114-132 | the loop's answer equals an odd number of parity-flipping edges, over the closed ring of the vertex list |
| Polygon.HorizontalEdgeNeverToggles | markets/navigation_utils.py:123-130 | a horizontal edge never flips the parity, so the division in the intersection is never by zero |
| Polygon.ClosingVertexIrrelevant | markets/navigation_utils.py:114-132 | repeating the first vertex at the end of the list, as stored boundaries do, does not change the answer |
| Polygon.CrossingsOfClosedPrefix | markets/navigation_utils.py:114-132 | the first k edges of a ring and of the same ring with its closing vertex repeated flip the parity equally often |
| Polygon.SeedBoundaryAxisOrder | markets/management/commands/create_sample_data.py:50-60 | the sample market's centre is outside its boundary as stored (latitude first), and inside once the entries are swapped |
| MarketModels.NewMarket | markets/models.py:5-41 | a new market has no boundary, no indoor map, and outdoor navigation enabled |
| MarketModels.NewShop | markets/models.py:216-267 | a new shop is on "Ground Floor", indoor floor 0, accessible without wheelchair access, active and not verified |
| MarketModels.NewRoute | markets/models.py:270-305 | a new route is generic (no start), outdoor and accessible |
| MarketModels.NewZone | markets/models.py:308-344 | a new zone is a 10 m circle, outdoors, floor 0, unrestricted |
| MarketModels.NewSession | markets/models.py:379-420 | a new session is active at step 0 in walking mode, with nothing remaining, completed or chosen as destination |
| MarketModels.FindMarket | markets/navigation_utils.py:36 | the lookup answers a market of the table with that id, and nothing only when there is none |
| MarketModels.FindShop | markets/navigation_utils.py:138 | the lookup answers a shop of the table with that id, and nothing only when there is none |
| MarketModels.FindGenericRoute | markets/navigation_utils.py:141-145 | the lookup answers a generic stored route ending at the shop whose id is the least of all such routes, and nothing only when there is none |
| NavigationService.FirstZone | markets/navigation_utils.py:78-91 | the zone found contains the point, and no earlier zone does; nothing is found exactly when no zone contains the point |
| NavigationService.DetectUserZone | markets/navigation_utils.py:78-91 | the early-return loop answers the first zone of the market containing the point, or nothing for an unknown market |
| NavigationService.ZoneCentreIsDetected | markets/navigation_utils.py:64-91 | standing at a zone's centre always finds a zone of that market, and the one found contains the point |
| NavigationService.FindNearbyShops | markets/navigation_utils.py:33-61 | the loop returns exactly the specification of the nearby list |
| NavigationService.WithinRadiusMembers | markets/navigation_utils.py:40-54 | every entry is a listed shop within the radius with its rounded distance, and every shop within the radius has an entry |
| NavigationService.NearbyShopsCorrect | markets/navigation_utils.py:33-61 | the list is sorted by distance; its entries are the active, verified shops of the market within the radius; an unknown market gives an empty list |
| NavigationService.UnverifiedShopNeverNearby | markets/navigation_utils.py:37 | a shop that is not verified, as every new shop is, is never listed |
| NavigationService.IsIndoorLocation | markets/navigation_utils.py:94-111 | the answer is false for an unknown market and for a boundary of fewer than three points, and otherwise the ray-casting test on the boundary |
| NavigationService.BasicInstructions | markets/navigation_utils.py:206-230 | two steps, from the start to the end; the second says "Arrive at" the name with distance 0; both carry the same bearing in [0, 360) |
| NavigationService.BasicInstructionsAddUp | markets/navigation_utils.py:206-230 | the first step carries the whole rounded distance and names the compass direction of the bearing |
| NavigationService.CalculateRouteToShop | markets/navigation_utils.py:135-203 | the method returns exactly the specification of the route |
| NavigationService.RouteToShopOutcomes | markets/navigation_utils.py:135-203 | unknown shop → error; a stored generic route → that route; otherwise a direct two-point route with the basic instructions and the walking time at 1.4 m/s |
| NavigationService.ArgMinWithin | markets/navigation_utils.py:320-332 | the index found is within the list |
| NavigationService.ArgMinWithinIsEarliestMinimum | markets/navigation_utils.py:320-332 | nothing is found exactly when no distance is within the limit; otherwise the index found is within the limit, no distance is smaller, and no earlier one is equal |
| NavigationService.CutoffAfterScanAgrees | markets/views.py:121-133 | finding the minimum first and checking the limit afterwards answers the same as scanning within the limit |
| NavigationService.DetectNearestMarket | markets/navigation_utils.py:317-332 | the loop answers exactly the specification of the nearest market |
| NavigationService.NearestMarketIsClosest | markets/navigation_utils.py:317-332 | nothing is found exactly when every market is farther than the limit; otherwise no market is closer than the one found |
| NavigationService.LocatedMarket | markets/navigation_utils.py:266-269 | a given market is used as is; with none given and auto-detection on it is the nearest market within 5 km, or none when there is no such market; with detection off it is none |
| NavigationService.RecordUnderMarket | markets/navigation_utils.py:276-308 | the record under a market: indoors exactly as `is_indoor_location` says; an unknown market gives no market, shop or zone; a known one gives that market, the first zone containing the point, and the nearest active, verified shop within 10 m (none exactly when there is none) |
| NavigationService.CloseShopsOfNearby | markets/navigation_utils.py:281-284 | the first of the nearby shops within 10 m is an active, verified shop of the market that no such shop beats at two-place rounding; under a known market the list is empty only when there is no such shop |
| NavigationService.LocationRecordFacts | markets/navigation_utils.py:260-314 | the record keeps the user, point, extras and time; with a market given, or none given and one detected within 5 km, it is recorded under that market as above; otherwise it has no market, shop or zone and is not indoors |
| NavigationService.IndoorDirectionRule | markets/navigation_utils.py:417-423 | the direction is sideways exactly when the horizontal displacement strictly dominates; it is right/forward by sign; reversing the displacement gives the opposite direction |
| NavigationService.TenthsTextSpellsRound1 | markets/navigation_utils.py:430 | the instruction's distance text is digits, a point and one digit, spelling `round(distance, 1)` in tenths |
| NavigationService.IndoorInstructions | markets/navigation_utils.py:415-440 | two steps, from the start point to the end point; the second says "You have arrived at your destination" with distance 0 |
| NavigationService.Length | markets/navigation_utils.py:399 | the distance is a non-negative square root of dx squared plus dy squared |
| NavigationService.CalculateIndoorRoute | markets/navigation_utils.py:384-412 | an error exactly when the market is unknown or has no indoor map |
| NavigationService.IndoorRouteFacts | markets/navigation_utils.py:384-412 | the two error messages; on success the route is the straight segment on the floor, its length rounded to two places, the whole seconds at 1 m/s, and a first instruction carrying the whole distance |
| NavigationService.DefaultMarketHasNoIndoorRoute | markets/models.py:5-41 | a market left at its defaults offers no indoor route |
| Serializers.ParseMode | markets/serializers.py:113 | exactly the three navigation modes are accepted |
| Serializers.ModeChoicesRoundTrip | markets/serializers.py:113 | each mode's name parses back to it, and a parsed name is the mode's name |
| Serializers.ParseStatus | markets/serializers.py:150 | exactly the four session statuses are accepted |
| Serializers.StatusChoicesRoundTrip | markets/serializers.py:150 | each status's name parses back to it, and a parsed name is the status's name |
| Serializers.StripLeft | transactions/serializers.py:33 | leading white space removed: a suffix, all dropped characters white space, not starting with white space |
| Serializers.StripRight | transactions/serializers.py:33 | trailing white space removed: a prefix, all dropped characters white space, not ending with white space |
| Serializers.Strip | transactions/serializers.py:33 | the stripped value neither starts nor ends with white space, and is empty exactly when the input is all white space; white space is every character `str.isspace()` accepts, the separators U+001C to U+001F included |
| Serializers.CharField | transactions/serializers.py:33 | a character field is accepted exactly when it is not blank after stripping and fits the maximum length; the stripped value is kept; blank gives the blank message |
| Serializers.OptionalCharField | users/serializers.py:86-87 | absent is accepted; present is accepted exactly when not blank, and is then stripped and truthy |
| Serializers.ValidateRouteRequest | markets/serializers.py:106-119 | valid exactly when the start is given, the mode is a choice, and a shop or both truthy destination coordinates are given; mode defaults to walking and indoor to false |
| Serializers.ZeroCoordinateCountsAsMissing | markets/serializers.py:116-118 | a destination at latitude 0.0 without a shop is refused |
| Serializers.ValidateLocationUpdate | markets/serializers.py:122-133 | valid exactly when both coordinates are given and battery and signal readings, when given, are in [0, 100] |
| Serializers.ValidateNearby | markets/serializers.py:136-141 | valid exactly when the point and market are given and the radius, when given, is in [1, 1000]; it defaults to 100 |
| Serializers.ValidateStatus | markets/serializers.py:144-150 | valid exactly when the session and position are given and the status, when given, is a choice; step defaults to 0 and status to active |
| Serializers.ValidateWithdrawAmount | markets/serializers.py:316-333 | accepted exactly when the amount fits the field, is positive, the seller has a wallet and the amount does not exceed its balance; each refusal carries its message: too many digits, not positive, no wallet, or the insufficient balance with the available amount |
| NavigationStore.StatusUpdateEffect | markets/views.py:797-802 | the step and status take the requested values whatever the old status; only completion stamps `completed_at`; the rest is unchanged |
| NavigationStore.RemainingDistanceRule | markets/views.py:804-811 | the remaining distance and time change only when the session has destination coordinates, to the distance from the new position and that distance over 1.4 m/s |
| NavigationStore.UpdatesPreserveUnsetFields | markets/views.py:797-813 | over any run of updates, a session without destination coordinates never gains a remaining distance, keeps its destination, and a completion stamp is never cleared |
| NavigationStore.CompletedSessionCanBeReopened | markets/views.py:797-802 | a completed session updated to active becomes active and keeps its completion stamp, so stamp and status disagree |
| NavigationStore.GuardedUpdateKeepsTerminalStates | markets/views.py:797-813 | under a guard, completed and cancelled sessions are final, others update as before, and stamp/status agreement is kept |
| NavigationStore.StartOutcomeFacts | markets/views.py:678-756 | a session is created exactly on a 201 carrying its id, and every failure is a 400 or a 500; it starts active at step 0; a shop destination stores the shop and its market; a coordinate destination stores the two-point route and the nearest market within 5 km |
| NavigationStore.OwnedSessionIndex | markets/views.py:792-795 | the session found has the id and belongs to the requester; nothing is found exactly when no such session exists |
| NavigationStore.NavigationDb.constructor | markets/models.py:347-420 | the store starts with the catalog and users and no locations or sessions |
| NavigationStore.NavigationDb.UpdateUserLocation | markets/navigation_utils.py:260-314 | an unknown user is an error and stores nothing; otherwise exactly the location record is appended |
| NavigationStore.NavigationDb.UpdateLocation | markets/views.py:758-781 | an invalid payload is a 400 and an unknown user a 400, storing nothing; otherwise the record is appended |
| NavigationStore.NavigationDb.StartNavigation | markets/views.py:678-756 | the answer is that of the specification, and the session table grows by the created session exactly when one is created |
| NavigationStore.NavigationDb.UpdateNavigationStatus | markets/views.py:783-821 | invalid → 400; a session that is not the requester's → 404 "Navigation session not found"; otherwise exactly that row becomes the updated session |
| NavigationStore.NavigationDb.UpdateNavigationStatusGuarded | markets/views.py:783-821 | the same with the terminal-state guard |
| NavigationStore.NavigationDb.ActiveSession | markets/views.py:823-834 | a success is a 200 with the user's only active session; 404 "No active navigation session" exactly when there is none; every other failure is a 500 |
| NavigationStore.TwoActiveSessionsBreakLookup | markets/views.py:823-834 | two active sessions of one user make the lookup fail with 500 |
| MarketViews.PinSearch | markets/views.py:84-138 | the loop answers exactly the specification of `pin_search` |
| MarketViews.PinSearchFindsNearestMarket | markets/views.py:84-138 | 404 exactly when every market is more than 5000 m away; otherwise the answer is the earliest market of least distance, with that distance rounded to whole meters, so no market undercuts it by more than 0.5 m; where the two Haversines agree it is the market `_detect_nearest_market` picks with a 5 km cutoff |
| MarketViews.Shops | markets/views.py:140-174 | the loop answers exactly the specification of `shops` |
| MarketViews.ShopsListingFacts | markets/views.py:140-174 | a failure exactly for an unknown market; the count is the number of listed shops; with both coordinates the listing is the active, verified shops, each once, with distances, sorted by distance; otherwise the shops without distances |
| MarketViews.DetectZone | markets/views.py:887-917 | 400 for a missing field or a malformed coordinate; otherwise 200 with the detected zone or none |
| MarketViews.IndoorRouteAnswer | markets/views.py:836-864 | success exactly when all fields are given and parse and the indoor route exists; every failure is a 400; a missing field gives "Missing required fields" |
| SellerDashboard.ParseOrderStatus | markets/models.py:109-116 | exactly the six order statuses are accepted |
| SellerDashboard.OrderStatusChoicesRoundTrip | markets/models.py:109-116 | each status's name parses back to it, and a parsed name is the status's name |
| SellerDashboard.WalletIndex | markets/views.py:455 | the wallet found is the seller's first one, and nothing only when the seller has none |
| SellerDashboard.OrderIndex | markets/views.py:365 | the order found has the id and is the seller's, and nothing only when there is none |
| SellerDashboard.FindProduct | markets/serializers.py:266 | the product found has the id, and nothing only when there is none |
| SellerDashboard.WithdrawalRecord | markets/views.py:465-471 | the record is a pending withdrawal of the amount |
| SellerDashboard.AcceptedWithdrawalKeepsBalance | markets/serializers.py:320-333 | after an accepted withdrawal the balance is non-negative and strictly smaller; without a wallet nothing is accepted |
| SellerDashboard.OrderLines | markets/serializers.py:265-279 | one order item per requested item |
| SellerDashboard.OrderTotalIsSumOfSubtotals | markets/serializers.py:265-283 | the order's total equals the sum of its items' subtotals; each item belongs to the order, with the requested quantity and the product's price |
| SellerDashboard.FirstMissing | markets/serializers.py:265-266 | the item found has no product and all earlier ones do; nothing is found exactly when all products exist |
| SellerDashboard.FirstMissingIsFirst | markets/serializers.py:265-266 | an item without a product preceded only by items with products is the one found |
| SellerDashboard.SellerStore.constructor | markets/models.py:169-214 | the store starts with the products and wallets and no transactions or orders |
| SellerDashboard.SellerStore.BalanceOf | markets/serializers.py:326-331 | no balance exactly when the seller has no wallet; otherwise the balance of the seller's wallet |
| SellerDashboard.SellerStore.Withdraw | markets/views.py:440-487 | validation failures and incomplete bank details are 400 and change nothing; otherwise a pending withdrawal is recorded and the balance falls by exactly the amount |
| SellerDashboard.SellerStore.UpdateOrder | markets/views.py:362-388 | an order that is not the seller's is 404 "Not found."; a missing or invalid status is 400; otherwise exactly that order's status changes, and its note when one is sent |
| SellerDashboard.SellerStore.CreateOrder | markets/serializers.py:252-285 | the order is written first with total 0; a missing product stops the loop with the earlier items written and the total left at 0; otherwise all items are written and the total is the sum of prices times quantities |
| SellerDashboard.SellerStore.AddLines | markets/serializers.py:265-279 | the item loop stops at the first missing product, exactly the one `FirstMissing` names, with the earlier snapshot lines written; otherwise it writes every line and the running total is the sum of prices times quantities |
| SellerDashboard.LinesStep | markets/serializers.py:265-279 | one more item adds its price times quantity to the total and one snapshot line of its product to the order items |
| Users.NewUser | users/models.py:29-36 | a new user has role "user", is a buyer, and has no verification flag set |
| Users.AtMostOneRole | users/models.py:58-65 | at most one of buyer, seller and admin holds, and none for a role outside the three |
| Users.ParseOtpType | users/models.py:69-79 | exactly the four verification types are accepted |
| Users.OtpTypeChoicesRoundTrip | users/models.py:69-79 | each type's name parses back to it, and a parsed name is the type's name |
| Users.NewOtp | users/models.py:81-90 | a new code record is unverified, with no attempts and no expiry yet |
| Users.Stamped | users/models.py:101-105 | saving sets the expiry to ten minutes after the save only when it is unset, and otherwise changes nothing |
| Users.ResaveNeverExtends | users/models.py:101-105 | saving again, at any later instant, leaves the record and its expiry as the first save made them |
| Users.FreshCodeLifetime | users/models.py:101-109 | a freshly saved code is expired exactly at instants strictly more than ten minutes after its creation |
| Users.AttemptsCountCalls | users/models.py:111-113 | n calls of `increment_attempts` on a saved record add exactly n attempts and change nothing else |
| Users.ApplyVerification | users/otp_views.py:135-146 | no flag is ever cleared, and nothing but the flags changes |
| Users.VerificationFlagRule | users/otp_views.py:135-146 | e-mail code: e-mail verified, account verified iff it was, the phone is verified, or there is no phone number; phone code: phone verified, account verified iff it was or the e-mail is; other codes change nothing |
| Users.BothChannelsVerifyAccount | users/otp_views.py:135-146 | verifying the e-mail and the phone, in either order, verifies the account |
| OtpViews.ContactFields | users/serializers.py:86-87 | accepted exactly when neither contact is blank; the values are stripped |
| OtpViews.ContactRule | users/serializers.py:97-116 | the rule holds exactly when some contact is given and the one the type names is given |
| OtpViews.ValidateOtpRequest | users/serializers.py:84-116 | valid exactly when the contacts are not blank, the type is a choice, some contact is given, and an e-mail or phone code has its contact; the values and type are kept |
| OtpViews.CodeField | users/serializers.py:123 | the code is accepted exactly when given and not blank, and is stripped |
| OtpViews.ValidateOtpVerify | users/serializers.py:119-152 | valid exactly when the code is accepted and the request checks pass; the contacts, type and stripped code are kept |
| OtpViews.ValidateOtpLogin | users/serializers.py:179-195 | valid exactly when the contacts are not blank, the code is accepted and some contact is given; the type is login |
| OtpViews.UserWithEmail | users/otp_views.py:40 | the user found has the e-mail, and nothing only when none has |
| OtpViews.UserWithPhone | users/otp_views.py:51 | the user found has the phone number, and nothing only when none has |
| OtpViews.UserRow | users/otp_views.py:132-133 | the user found has the id, and nothing only when none has |
| OtpViews.MatchingRows | users/otp_views.py:101-113 | the rows kept are exactly the unverified records of the type and code with the e-mail when one is given, otherwise the phone when one is given |
| OtpViews.MostRecentRow | users/otp_views.py:113-118 | the row chosen matches; nothing is chosen exactly when no row matches |
| OtpViews.MostRecentRowIsNewest | users/otp_views.py:113 | no matching record was created later than the one chosen |
| OtpViews.MostRecentRowIsNewestOfAll | users/otp_views.py:113 | every matching record was created no later than the one chosen |
| OtpViews.NewestAppendedWins | users/otp_views.py:113 | a matching record appended after strictly older records is the one chosen |
| OtpViews.RequestUser | users/otp_views.py:37-58 | an unknown e-mail or phone is refused exactly for login and password-reset codes; the phone's account replaces the e-mail's; any account found exists |
| OtpViews.RequestOtpOutcome | users/otp_views.py:21-85 | no user changes, and existing code records are kept |
| OtpViews.RequestOtpFacts | users/otp_views.py:21-85 | invalid → 400 and 404 change nothing; otherwise a fresh unverified record valid for ten minutes is stored, even when sending fails; success exactly when an e-mail was given and sent, so a phone-only request always answers 500 |
| OtpViews.VerifyOtpOutcome | users/otp_views.py:87-167 | no record or user is added or removed |
| OtpViews.VerifyWithCode | users/otp_views.py:127-161 | the record found is marked verified and saved |
| OtpViews.VerifyOtpRejects | users/otp_views.py:112-125 | no match → 400 "Invalid verification code", an expired match → 400, and neither changes anything: an expired code is never marked verified |
| OtpViews.VerifyOtpSpendsNewest | users/otp_views.py:113-129 | otherwise the newest match becomes verified and every other record is unchanged |
| OtpViews.VerifyWithCodeFacts | users/otp_views.py:131-161 | a code without an account changes no user and succeeds; with one, only that user's flags change by the flag rule, and the answer carries the updated account exactly for a login code; a dangling account fails and changes no user |
| OtpViews.MarkVerifiedSpendsOne | users/otp_views.py:127-129 | marking a row verified changes no other row |
| OtpViews.VerifyFoundRowOutcome | users/otp_views.py:112-127 | past validation, the newest-match lookup and the expiry check, the outcome is the code-spending step on the row found |
| OtpViews.VerifyFoundRow | users/otp_views.py:112-161 | an unexpired newest match whose account, if named, exists is answered with success and becomes verified |
| OtpViews.SameFieldsVerify | users/serializers.py:119-150 | the verify serializer accepts the fields the request serializer accepted, plus a non-blank code, with the same contact and type |
| OtpViews.RequestAppends | users/otp_views.py:21-85 | a valid e-mail request whose account lookup succeeds stores exactly one new record and reports the code sent |
| OtpViews.RequestedRecordFacts | users/otp_views.py:61-67 | the stored record matches its own request and has not expired within ten minutes of its creation |
| OtpViews.VerifiedCodeIsSpent | users/otp_views.py:127-129 | after a successful verification the record used no longer matches the same request |
| OtpViews.RequestedCodeVerifies | users/otp_views.py:21-167 | a code sent by e-mail and verified within ten minutes with the same contact, type and code succeeds and verifies the new record, when all older records are older |
| OtpViews.VerifyLoginOutcome | users/otp_views.py:259-316 | no user changes; a success logs in one of the existing users |
| OtpViews.VerifyLoginFacts | users/otp_views.py:259-316 | a successful login is the account of the newest unexpired login code, which is now verified |
| OtpViews.ResetPasswordOutcome | users/otp_views.py:376-425 | no record or user is added or removed |
| OtpViews.ResetPasswordFacts | users/otp_views.py:376-425 | a missing code, password, or both contacts → 400 with nothing changed; a success verifies the newest unexpired reset code and changes exactly its account's password |
| OtpViews.OtpService.constructor | users/models.py:67-113 | the store starts with the given users and no code records |
| OtpViews.OtpService.RequestOtp | users/otp_views.py:21-85 | the answer and the new tables are those of the specification |
| OtpViews.OtpService.SpendCode | users/otp_views.py:127-133 | the record is marked verified and saved, users untouched, and the row of its account is answered |
| OtpViews.OtpService.VerifyOtp | users/otp_views.py:87-167 | the answer and the new tables are those of the specification |
| OtpViews.OtpService.VerifyCode | users/otp_views.py:127-161 | spending the found row and updating its account gives the answer and the tables of the specification |
| OtpViews.OtpService.VerifyLogin | users/otp_views.py:259-316 | the answer and the new tables are those of the specification |
| OtpViews.OtpService.ResetPasswordVerify | users/otp_views.py:376-425 | the answer and the new tables are those of the specification |
| OtpViews.OtpService.IncrementAttempts | users/models.py:111-113 | exactly that record gains one attempt and is saved; for a saved record nothing else changes |
| Transactions.NewTransaction | transactions/models.py:22-28 | a new record is a pending order payment without reference or description |
| Transactions.NewWallet | transactions/models.py:59-64 | a new wallet is empty and active |
| Transactions.WalletRow | transactions/views.py:29 | the wallet found is the user's, and nothing only when the user has none |
| Transactions.WithWallet | transactions/views.py:29 | afterwards the user has a wallet; an existing one is kept, otherwise an empty one is appended |
| Transactions.Credit | transactions/views.py:65-66 | the wallet table keeps its size (the balance effect is `CreditAddsAmount`) |
| Transactions.CreditOpenedWallet | transactions/views.py:65-66 | raising the opened wallet's row is the credit of that user, and leaves the old balance plus the amount |
| Transactions.CreditAddsAmount | transactions/views.py:48-66 | opening a wallet changes no balance; crediting adds exactly the amount to the user's balance and leaves every other user's balance alone |
| Transactions.RowAfterUpdate | transactions/views.py:65-66 | changing a wallet's balance does not change which wallet belongs to whom |
| Transactions.ValidateFund | transactions/serializers.py:31-38 | valid exactly when the amount fits the field and is positive and the payment method is not blank and at most 50 characters once stripped; a non-positive amount gives its message |
| Transactions.FundReference | transactions/views.py:61 | the reference starts with "FUND-" and has room for a user id, a dash and a two-place amount |
| Transactions.FundReferenceIdentifiesDeposit | transactions/views.py:61 | the reference determines the user and the amount it was made from |
| Transactions.FundingRecord | transactions/views.py:55-62 | the record is a completed deposit of the amount by the user, with the FUND reference and the payment method in its description |
| Transactions.SummaryOf | transactions/views.py:84-100 | the count never exceeds the records, and with no records of the user every total is 0 |
| Transactions.CountBounds | transactions/views.py:91-99 | a user without records has a zero total of every type |
| Transactions.AppendRecordSummary | transactions/views.py:84-100 | appending a record adds its amount to its owner's total of its type and one to the owner's count, and changes no other user's summary |
| Transactions.FundingRaisesDeposits | transactions/views.py:36-100 | after funding, the user's deposit total rises by the amount and the count by one, the other totals unchanged |
| Transactions.HistoryNewestFirst | transactions/views.py:80-82 | the listing holds exactly the user's records, each as many times as the table does, newest first |
| Transactions.WalletLedger.constructor | transactions/models.py:59-72 | the ledger starts with no wallets and no records |
| Transactions.WalletLedger.OpenWallet | transactions/views.py:29 | the wallet table becomes that of `get_or_create`, and the answered row is the user's wallet |
| Transactions.WalletLedger.Balance | transactions/views.py:26-34 | the answer is the user's balance, 0 for a new wallet, and a wallet is created if there was none |
| Transactions.WalletLedger.Fund | transactions/views.py:36-72 | an invalid payload is 400 and touches no table; otherwise the wallet is opened, the deposit appended, the balance raised by the amount, and the answer reports the new balance |

## Left out

- `ExternalNavigationService` (Google Maps and Mapbox calls) is network I/O.
- The chat app, the JWT tokens, password hashing and permission classes are not part of this
  model. A login answers with the account instead of tokens. `set_password` stores the new
  password as given.
- Floating point is out of scope. Trigonometry, `sqrt` and `str()` of a float are abstract;
  NaN, infinities and rounding error are not modelled. `TenthsText` writes a fixed-point
  string and never the exponent form Python can print.
- DRF error bodies collect every failing field into a dictionary. The model reports a single
  message.
- E-mail address and phone number formats (`EmailField`, `PhoneNumberField`) are not checked;
  any non-blank string is accepted.
- Amounts (`DecimalField`) reach the model already in cents. An input with more than two
  decimal places is not modelled.
- UUID keys are natural numbers, so malformed UUID strings in requests are not modelled.
  `str()` of a user id in the FUND reference is written as decimal digits.
- The database order of unordered queries without `.first()` is taken to be table order. Ties in
  `order_by('-created_at')` are broken by table order, which the database does not promise.
- Concurrency, `transaction.atomic` and database column limits (a balance growing past ten
  digits) are not modelled.
- Sending e-mail and SMS is I/O: whether the e-mail went out is a parameter. The SMS sender
  always fails, and is modelled that way.
- `reset_password_request`, `email_login` and `phone_login` are the request halves of other flows.
  They are not part of this model.
- `users/utils.py` is not part of this model beyond that parameter. It generates random codes.
- Negative order quantities are refused by the database column. The model takes quantities as
  naturals.
- `start_navigation` looks the destination shop up a second time after the route
  call has found it, so its 404 branch there cannot be taken; it is not a separate branch.
- `withdraw`'s 404 for a missing wallet cannot be reached after validation, which already
  refuses it; it is not a separate branch.
- `calculate_route_to_shop` takes a navigation mode it never uses; the model takes none.
- The sorts are modelled as a functional insertion sort on sequences, not in place.
- WalletIndex, WalletRow and UserWithEmail: the class tables keep no invariant that keys are
  unique, and new ids are parameters that are not required to be fresh. The schema makes the
  keys unique (one wallet per user or seller, a unique e-mail), so the first and the last match
  would be the same row; the model does not prove that.
- `int(data['floor'])` in `indoor_route` is modelled for numeric input only; a non-numeric string
  is a 400 without its message text.
- `ValidateWithdrawAmount`: for an amount beyond the field's digits the message is the
  whole-digit one, also where DRF would report the total-digit message.
- A code record whose account row is missing cannot exist under the `CASCADE` rule. The model
  still answers it, with a 400 carrying the ORM's not-found message.
- The shape of the stored boundary: `_point_in_polygon` reads `[x, y]` as longitude, latitude,
  while the sample data stores latitude first (`Polygon.SeedBoundaryAxisOrder` shows the effect).
