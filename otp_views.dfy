/** The one-time-code endpoints of users/otp_views.py, with the validators of
    users/serializers.py they use: requesting a code, verifying it, logging
    in with it and resetting a password with it. Code generation and e-mail
    delivery are parameters; a phone code is never delivered. */
module OtpViews {
  import opened Wrappers
  import opened Collections
  import opened Serializers
  import opened Users

  /* ---------------- validators ---------------- */

  const NoContactMessage := "Either email or phone_number must be provided"
  const EmailRequiredMessage := "Email is required for email verification"
  const PhoneRequiredMessage := "Phone number is required for phone verification"

  /** The validated contact fields; each is absent or a non-blank,
      stripped string. */
  datatype Contact = Contact(email: Option<string>, phoneNumber: Option<string>)

  predicate NotBlank(o: Option<string>) {
    o.None? || Strip(o.value) != ""
  }

  function Stripped(o: Option<string>): Option<string> {
    if o.Some? then Some(Strip(o.value)) else None
  }

  /** The optional `email` and `phone_number` fields. Address and number
      formats are not checked. */
  function ContactFields(email: Option<string>, phone: Option<string>): (r: Result<Contact>)
    ensures r.Ok? <==> NotBlank(email) && NotBlank(phone)
    ensures r.Ok? ==> r.value == Contact(Stripped(email), Stripped(phone))
    ensures r.Ok? ==> NotBlank(r.value.email) && NotBlank(r.value.phoneNumber)
  {
    match OptionalCharField(email)
    case Err(e) => Err(e)
    case Ok(e) =>
      match OptionalCharField(phone)
      case Err(m) => Err(m)
      case Ok(p) => Ok(Contact(e, p))
  }

  /** `validate` of the request and verify serializers: some contact, and
      the one the type names. `None` when the rule holds. */
  function ContactRule(c: Contact, kind: OtpType): (e: Option<string>)
    ensures e.None? <==>
              && (c.email.Some? || c.phoneNumber.Some?)
              && (kind == EmailCheck ==> c.email.Some?)
              && (kind == PhoneCheck ==> c.phoneNumber.Some?)
  {
    if c.email.None? && c.phoneNumber.None? then Some(NoContactMessage)
    else if kind == EmailCheck && c.email.None? then Some(EmailRequiredMessage)
    else if kind == PhoneCheck && c.phoneNumber.None? then Some(PhoneRequiredMessage)
    else None
  }

  datatype OtpRequestInput = OtpRequestInput(
    email: Option<string>,
    phoneNumber: Option<string>,
    verificationType: Option<string>)

  datatype OtpRequest = OtpRequest(contact: Contact, kind: OtpType)

  /** `OTPRequestSerializer`: the field checks, then the contact rule. */
  function ValidateOtpRequest(input: OtpRequestInput): (r: Result<OtpRequest>)
    ensures r.Ok? <==>
              && NotBlank(input.email) && NotBlank(input.phoneNumber)
              && input.verificationType.Some? && ParseOtpType(input.verificationType.value).Some?
              && (input.email.Some? || input.phoneNumber.Some?)
              && (ParseOtpType(input.verificationType.value).value == EmailCheck ==> input.email.Some?)
              && (ParseOtpType(input.verificationType.value).value == PhoneCheck ==> input.phoneNumber.Some?)
    ensures r.Ok? ==>
              && r.value.contact == Contact(Stripped(input.email), Stripped(input.phoneNumber))
              && OtpTypeName(r.value.kind) == input.verificationType.value
  {
    match ContactFields(input.email, input.phoneNumber)
    case Err(e) => Err(e)
    case Ok(c) =>
      if input.verificationType.None? then Err(RequiredMessage)
      else
        match ParseOtpType(input.verificationType.value)
        case None => Err(InvalidChoice(input.verificationType.value))
        case Some(kind) =>
          OtpTypeChoicesRoundTrip(kind, input.verificationType.value);
          assert c.email.Some? <==> input.email.Some?;
          assert c.phoneNumber.Some? <==> input.phoneNumber.Some?;
          match ContactRule(c, kind)
          case Some(e) => Err(e)
          case None => Ok(OtpRequest(c, kind))
  }

  datatype OtpVerifyInput = OtpVerifyInput(
    email: Option<string>,
    phoneNumber: Option<string>,
    otpCode: Option<string>,
    verificationType: Option<string>)

  datatype OtpVerify = OtpVerify(contact: Contact, code: string, kind: OtpType)

  /** The required `otp_code` field. */
  function CodeField(code: Option<string>): (r: Result<string>)
    ensures r.Ok? <==> code.Some? && Strip(code.value) != ""
    ensures r.Ok? ==> r.value == Strip(code.value)
  {
    if code.None? then Err(RequiredMessage) else CharField(code.value, None)
  }

  /** `OTPVerifySerializer`: the request checks plus a required code. */
  function ValidateOtpVerify(input: OtpVerifyInput): (r: Result<OtpVerify>)
    ensures r.Ok? <==>
              CodeField(input.otpCode).Ok?
              && ValidateOtpRequest(OtpRequestInput(input.email, input.phoneNumber, input.verificationType)).Ok?
    ensures r.Ok? ==>
              var req := ValidateOtpRequest(OtpRequestInput(input.email, input.phoneNumber, input.verificationType)).value;
              && r.value.contact == req.contact && r.value.kind == req.kind
              && r.value.code == Strip(input.otpCode.value)
  {
    match CodeField(input.otpCode)
    case Err(e) => Err(e)
    case Ok(code) =>
      match ValidateOtpRequest(OtpRequestInput(input.email, input.phoneNumber, input.verificationType))
      case Err(e) => Err(e)
      case Ok(req) => Ok(OtpVerify(req.contact, code, req.kind))
  }

  datatype OtpLoginInput = OtpLoginInput(email: Option<string>, phoneNumber: Option<string>, otpCode: Option<string>)

  /** `OTPLoginSerializer`: contact fields, a required code, some contact. */
  function ValidateOtpLogin(input: OtpLoginInput): (r: Result<OtpVerify>)
    ensures r.Ok? <==>
              && NotBlank(input.email) && NotBlank(input.phoneNumber) && CodeField(input.otpCode).Ok?
              && (input.email.Some? || input.phoneNumber.Some?)
    ensures r.Ok? ==>
              && r.value.contact == Contact(Stripped(input.email), Stripped(input.phoneNumber))
              && r.value.code == Strip(input.otpCode.value) && r.value.kind == Login
  {
    match ContactFields(input.email, input.phoneNumber)
    case Err(e) => Err(e)
    case Ok(c) =>
      match CodeField(input.otpCode)
      case Err(e) => Err(e)
      case Ok(code) =>
        if c.email.None? && c.phoneNumber.None? then Err(NoContactMessage)
        else Ok(OtpVerify(c, code, Login))
  }

  /* ---------------- the tables and their lookups ---------------- */

  datatype Tables = Tables(users: seq<User>, otps: seq<OtpRecord>)

  /** `User.objects.get(email=...)`; e-mail addresses are unique. */
  function UserWithEmail(users: seq<User>, email: string): (k: Option<nat>)
    ensures k.Some? ==> k.value < |users| && users[k.value].email == email
    ensures k.None? <==> forall i :: 0 <= i < |users| ==> users[i].email != email
  {
    if users == [] then None
    else if users[|users| - 1].email == email then Some(|users| - 1)
    else UserWithEmail(users[..|users| - 1], email)
  }

  /** `User.objects.get(phone_number=...)`; phone numbers are unique. */
  function UserWithPhone(users: seq<User>, phone: string): (k: Option<nat>)
    ensures k.Some? ==> k.value < |users| && users[k.value].phoneNumber == Some(phone)
    ensures k.None? <==> forall i :: 0 <= i < |users| ==> users[i].phoneNumber != Some(phone)
  {
    if users == [] then None
    else if users[|users| - 1].phoneNumber == Some(phone) then Some(|users| - 1)
    else UserWithPhone(users[..|users| - 1], phone)
  }

  /** The row of the user a code belongs to (the primary key). */
  function UserRow(users: seq<User>, id: Id): (k: Option<nat>)
    ensures k.Some? ==> k.value < |users| && users[k.value].id == id
    ensures k.None? <==> forall i :: 0 <= i < |users| ==> users[i].id != id
  {
    if users == [] then None
    else if users[|users| - 1].id == id then Some(|users| - 1)
    else UserRow(users[..|users| - 1], id)
  }

  /** The `filter(...)` of the verify endpoints: type, code, not yet
      verified, and the e-mail when one is given, otherwise the phone when
      one is given. */
  predicate Matches(r: OtpRecord, kind: OtpType, code: string, email: Option<string>, phone: Option<string>) {
    && r.kind == kind && r.code == code && !r.isVerified
    && (if TruthyString(email) then r.email == email
        else TruthyString(phone) ==> r.phoneNumber == phone)
  }

  /** The rows the filter keeps, in table order. */
  function MatchingRows(otps: seq<OtpRecord>, kind: OtpType, code: string,
                        email: Option<string>, phone: Option<string>): (rows: seq<int>)
    ensures forall i :: 0 <= i < |rows| ==> 0 <= rows[i] < |otps| && Matches(otps[rows[i]], kind, code, email, phone)
    ensures forall k :: 0 <= k < |otps| && Matches(otps[k], kind, code, email, phone) ==> k in rows
  {
    var all := seq(|otps|, k => k);
    var rows := Filter(all, k => 0 <= k < |otps| && Matches(otps[k], kind, code, email, phone));
    assert forall k :: 0 <= k < |otps| && Matches(otps[k], kind, code, email, phone) ==> all[k] == k && all[k] in rows;
    rows
  }

  /** The key of `order_by('-created_at')` on row indices. */
  function NewestFirst(otps: seq<OtpRecord>): int -> real {
    k => if 0 <= k < |otps| then -(otps[k].createdAt as real) else 0.0
  }

  /** `filter(...).order_by('-created_at').first()`, as a row index. */
  function MostRecentRow(otps: seq<OtpRecord>, kind: OtpType, code: string,
                         email: Option<string>, phone: Option<string>): (k: Option<nat>)
    ensures k.Some? ==> k.value < |otps| && Matches(otps[k.value], kind, code, email, phone)
    ensures k.None? <==> forall j :: 0 <= j < |otps| ==> !Matches(otps[j], kind, code, email, phone)
  {
    var rows := MatchingRows(otps, kind, code, email, phone);
    if rows == [] then None
    else
      SortByKeyHeadIsLeast(rows, NewestFirst(otps), rows[0]);
      var first := SortByKey(rows, NewestFirst(otps))[0];
      Some(first)
  }

  /** The chosen row is one of the newest candidates: no candidate was
      created later. */
  lemma MostRecentRowIsNewest(otps: seq<OtpRecord>, kind: OtpType, code: string,
                              email: Option<string>, phone: Option<string>, j: nat)
    requires j < |otps| && Matches(otps[j], kind, code, email, phone)
    ensures MostRecentRow(otps, kind, code, email, phone).Some?
    ensures otps[j].createdAt <= otps[MostRecentRow(otps, kind, code, email, phone).value].createdAt
  {
    var rows := MatchingRows(otps, kind, code, email, phone);
    SortByKeyHeadIsLeast(rows, NewestFirst(otps), j);
    var first := SortByKey(rows, NewestFirst(otps))[0];
    assert NewestFirst(otps)(first) <= NewestFirst(otps)(j);
  }

  /* ---------------- outcomes ---------------- */

  datatype OtpAnswer = CodeSent(verificationId: Id) | Verified(kind: OtpType) | LoggedIn(user: User) | PasswordChanged

  const NoEmailUserMessage := "No user found with this email address"
  const NoPhoneUserMessage := "No user found with this phone number"
  const SendFailedMessage := "Failed to send verification code. Please try again later."
  const InvalidCodeMessage := "Invalid verification code"
  const ExpiredMessage := "Verification code has expired. Please request a new one."
  const ResetExpiredMessage := "Verification code has expired"
  const MissingUserDetail := "User matching query does not exist."
  const LoginWithoutUserMessage := "Login failed: 'NoneType' object has no attribute 'id'"
  const ResetWithoutUserMessage := "Password reset failed: 'NoneType' object has no attribute 'set_password'"
  const CodeRequiredMessage := "Verification code is required"
  const PasswordRequiredMessage := "New password is required"
  const ResetNoContactMessage := "Either email or phone number is required"

  /** Only a login or password-reset code needs an existing account. */
  predicate NeedsAccount(kind: OtpType) {
    kind == PasswordReset || kind == Login
  }

  /** The account lookup of `request_otp`: by e-mail, then by phone, the
      phone's account replacing the e-mail's. `Err` is the 404 message. */
  function RequestUser(users: seq<User>, req: OtpRequest): (r: Result<Option<Id>>)
    ensures r.Err? ==> NeedsAccount(req.kind)
    ensures r.Err? <==>
              NeedsAccount(req.kind)
              && ((req.contact.email.Some? && UserWithEmail(users, req.contact.email.value).None?)
                  || (req.contact.phoneNumber.Some? && UserWithPhone(users, req.contact.phoneNumber.value).None?))
    ensures r.Ok? && r.value.Some? ==> UserRow(users, r.value.value).Some?
    ensures r.Ok? && req.contact.phoneNumber.Some? && UserWithPhone(users, req.contact.phoneNumber.value).Some? ==>
              r.value == Some(users[UserWithPhone(users, req.contact.phoneNumber.value).value].id)
  {
    var byEmail := if req.contact.email.Some? then UserWithEmail(users, req.contact.email.value) else None;
    if req.contact.email.Some? && byEmail.None? && NeedsAccount(req.kind) then Err(NoEmailUserMessage)
    else
      var fromEmail := if byEmail.Some? then Some(users[byEmail.value].id) else None;
      if req.contact.phoneNumber.Some? then
        match UserWithPhone(users, req.contact.phoneNumber.value)
        case Some(k) => Ok(Some(users[k].id))
        case None => if NeedsAccount(req.kind) then Err(NoPhoneUserMessage) else Ok(fromEmail)
      else Ok(fromEmail)
  }

  /** The record `request_otp` creates, as saved. */
  function RequestedRecord(req: OtpRequest, userId: Option<Id>, code: string, id: Id, now: Instant): OtpRecord {
    Stamped(NewOtp(id, userId, req.contact.email, req.contact.phoneNumber, code, req.kind, now), now)
  }

  /** `request_otp`, given the generated code, the new record's id, the
      clock and whether the e-mail went out. */
  function RequestOtpOutcome(t: Tables, input: OtpRequestInput, code: string, id: Id, now: Instant,
                             emailSent: bool): (out: (Response<OtpAnswer>, Tables))
    ensures out.1.users == t.users
    ensures |out.1.otps| >= |t.otps| && out.1.otps[..|t.otps|] == t.otps
  {
    match ValidateOtpRequest(input)
    case Err(e) => (Failure(HTTP_400, e), t)
    case Ok(req) =>
      match RequestUser(t.users, req)
      case Err(e) => (Failure(HTTP_404, e), t)
      case Ok(userId) =>
        var saved := t.(otps := t.otps + [RequestedRecord(req, userId, code, id, now)]);
        assert saved.otps[..|t.otps|] == t.otps;
        var success := req.contact.email.Some? && emailSent;
        if !success then (Failure(HTTP_500, SendFailedMessage), saved)
        else (Success(HTTP_200, CodeSent(id)), saved)
  }

  /** `request_otp` refuses an unknown contact only for login and password
      reset; past the lookup it always stores a fresh, unverified record
      valid for ten minutes, even when sending fails; a code is reported
      sent only when it went out by e-mail, so a phone-only request always
      fails with 500. */
  lemma RequestOtpFacts(t: Tables, input: OtpRequestInput, code: string, id: Id, now: Instant, emailSent: bool)
    ensures var out := RequestOtpOutcome(t, input, code, id, now, emailSent);
            var v := ValidateOtpRequest(input);
            && (v.Err? ==> out == (Failure(HTTP_400, v.error), t))
            && (v.Ok? && RequestUser(t.users, v.value).Err? ==>
                  out.0.Failure? && out.0.code == HTTP_404 && out.1 == t && NeedsAccount(v.value.kind))
            && (v.Ok? && RequestUser(t.users, v.value).Ok? ==>
                  && |out.1.otps| == |t.otps| + 1
                  && var r := out.1.otps[|t.otps|];
                  && r.id == id && r.code == code && r.kind == v.value.kind && !r.isVerified && r.attempts == 0
                  && r.email == v.value.contact.email && r.phoneNumber == v.value.contact.phoneNumber
                  && r.userId == RequestUser(t.users, v.value).value
                  && r.createdAt == now && r.expiresAt == Some(now + TenMinutes)
                  && (out.0.Success? <==> v.value.contact.email.Some? && emailSent)
                  && (out.0.Success? ==> out.0 == Success(HTTP_200, CodeSent(id)))
                  && (out.0.Failure? ==> out.0 == Failure(HTTP_500, SendFailedMessage)))
    ensures input.email.None? ==> RequestOtpOutcome(t, input, code, id, now, emailSent).0.Failure?
  {
  }

  /** Marks the chosen row verified and saves it. */
  function MarkVerified(otps: seq<OtpRecord>, k: nat, now: Instant): seq<OtpRecord>
    requires k < |otps|
  {
    otps[k := Stamped(otps[k].(isVerified := true), now)]
  }

  /** `verify_otp`: the newest matching record, if it has not expired, is
      marked verified and its account's flags are updated; a login code
      also logs the account in. */
  function VerifyOtpOutcome(t: Tables, input: OtpVerifyInput, now: Instant): (out: (Response<OtpAnswer>, Tables))
    ensures |out.1.otps| == |t.otps| && |out.1.users| == |t.users|
  {
    match ValidateOtpVerify(input)
    case Err(e) => (Failure(HTTP_400, e), t)
    case Ok(v) =>
      match MostRecentRow(t.otps, v.kind, v.code, v.contact.email, v.contact.phoneNumber)
      case None => (Failure(HTTP_400, InvalidCodeMessage), t)
      case Some(k) =>
        if IsExpired(t.otps[k], now) then (Failure(HTTP_400, ExpiredMessage), t)
        else VerifyWithCode(t, k, v.kind, now)
  }

  /** The rest of `verify_otp` once row `k` is found and unexpired. */
  function VerifyWithCode(t: Tables, k: nat, kind: OtpType, now: Instant): (out: (Response<OtpAnswer>, Tables))
    requires k < |t.otps|
    ensures out.1.otps == MarkVerified(t.otps, k, now) && |out.1.users| == |t.users|
  {
    var otps := MarkVerified(t.otps, k, now);
    match t.otps[k].userId
    case None => (Success(HTTP_200, Verified(kind)), t.(otps := otps))
    case Some(uid) =>
      match UserRow(t.users, uid)
      case None => (Failure(HTTP_400, "Verification failed: " + MissingUserDetail), t.(otps := otps))
      case Some(i) =>
        var user := ApplyVerification(t.users[i], kind);
        var after := Tables(t.users[i := user], otps);
        if kind == Login then (Success(HTTP_200, LoggedIn(user)), after)
        else (Success(HTTP_200, Verified(kind)), after)
  }

  /** `verify_otp` changes nothing when no record matches or the newest
      match has expired: an expired code is never marked verified. */
  lemma VerifyOtpRejects(t: Tables, input: OtpVerifyInput, now: Instant)
    requires ValidateOtpVerify(input).Ok?
    ensures var v := ValidateOtpVerify(input).value;
            var m := MostRecentRow(t.otps, v.kind, v.code, v.contact.email, v.contact.phoneNumber);
            && (m.None? ==> VerifyOtpOutcome(t, input, now) == (Failure(HTTP_400, InvalidCodeMessage), t))
            && (m.Some? && IsExpired(t.otps[m.value], now) ==>
                  VerifyOtpOutcome(t, input, now) == (Failure(HTTP_400, ExpiredMessage), t))
  {
  }

  /** Otherwise exactly the newest candidate becomes verified, and every
      other row is left as it was. */
  lemma VerifyOtpSpendsNewest(t: Tables, input: OtpVerifyInput, now: Instant)
    requires ValidateOtpVerify(input).Ok?
    requires var v := ValidateOtpVerify(input).value;
             var m := MostRecentRow(t.otps, v.kind, v.code, v.contact.email, v.contact.phoneNumber);
             m.Some? && !IsExpired(t.otps[m.value], now)
    ensures var v := ValidateOtpVerify(input).value;
            var k := MostRecentRow(t.otps, v.kind, v.code, v.contact.email, v.contact.phoneNumber).value;
            var otps := VerifyOtpOutcome(t, input, now).1.otps;
            && |otps| == |t.otps| && otps[k].isVerified
            && (forall j :: 0 <= j < |t.otps| && j != k ==> otps[j] == t.otps[j])
            && (forall j :: 0 <= j < |t.otps| && Matches(t.otps[j], v.kind, v.code, v.contact.email, v.contact.phoneNumber)
                  ==> t.otps[j].createdAt <= t.otps[k].createdAt)
  {
    var v := ValidateOtpVerify(input).value;
    var k := MostRecentRow(t.otps, v.kind, v.code, v.contact.email, v.contact.phoneNumber).value;
    VerifyFoundRowOutcome(t, input, v, k, now);
    MarkVerifiedSpendsOne(t.otps, k, now);
    MostRecentRowIsNewestOfAll(t.otps, v.kind, v.code, v.contact.email, v.contact.phoneNumber);
  }

  /** Marking row `k` verified changes no other row. */
  lemma MarkVerifiedSpendsOne(otps: seq<OtpRecord>, k: nat, now: Instant)
    requires k < |otps|
    ensures var after := MarkVerified(otps, k, now);
            && |after| == |otps| && after[k].isVerified
            && (forall j :: 0 <= j < |otps| && j != k ==> after[j] == otps[j])
  {
  }

  /** No candidate was created later than the one the lookup picks. */
  lemma MostRecentRowIsNewestOfAll(otps: seq<OtpRecord>, kind: OtpType, code: string,
                                   email: Option<string>, phone: Option<string>)
    requires MostRecentRow(otps, kind, code, email, phone).Some?
    ensures forall j :: 0 <= j < |otps| && Matches(otps[j], kind, code, email, phone) ==>
              otps[j].createdAt <= otps[MostRecentRow(otps, kind, code, email, phone).value].createdAt
  {
    forall j | 0 <= j < |otps| && Matches(otps[j], kind, code, email, phone)
      ensures otps[j].createdAt <= otps[MostRecentRow(otps, kind, code, email, phone).value].createdAt
    {
      MostRecentRowIsNewest(otps, kind, code, email, phone, j);
    }
  }

  /** The account side of a found code: a code without an account succeeds
      and changes no user; a code with one changes only that user, by the
      e-mail and phone flag rules, and a login code answers with the
      updated account. */
  lemma VerifyWithCodeFacts(t: Tables, k: nat, kind: OtpType, now: Instant)
    requires k < |t.otps|
    ensures var out := VerifyWithCode(t, k, kind, now);
            && (t.otps[k].userId.None? ==> out.0 == Success(HTTP_200, Verified(kind)) && out.1.users == t.users)
            && (t.otps[k].userId.Some? && UserRow(t.users, t.otps[k].userId.value).Some? ==>
                  var i := UserRow(t.users, t.otps[k].userId.value).value;
                  && out.1.users == t.users[i := ApplyVerification(t.users[i], kind)]
                  && out.0.Success?
                  && (kind == Login <==> out.0.body.LoggedIn?)
                  && (kind == Login ==> out.0.body.user == out.1.users[i]))
            && (t.otps[k].userId.Some? && UserRow(t.users, t.otps[k].userId.value).None? ==>
                  out.0.Failure? && out.1.users == t.users)
  {
  }

  /** A code works once: after a successful verification the record it
      matched no longer matches. */
  lemma VerifiedCodeIsSpent(t: Tables, input: OtpVerifyInput, now: Instant)
    requires ValidateOtpVerify(input).Ok?
    requires VerifyOtpOutcome(t, input, now).0.Success?
    ensures var v := ValidateOtpVerify(input).value;
            var k := MostRecentRow(t.otps, v.kind, v.code, v.contact.email, v.contact.phoneNumber).value;
            !Matches(VerifyOtpOutcome(t, input, now).1.otps[k], v.kind, v.code, v.contact.email, v.contact.phoneNumber)
  {
  }

  /** A code just requested by e-mail and verified within ten minutes with
      the same contact, type and code succeeds and verifies the new record,
      provided every older record was created strictly earlier. */
  lemma {:induction false} RequestedCodeVerifies(t: Tables, email: string, kindName: string, code: string,
                                                 id: Id, now: Instant, later: Instant)
    requires ValidateOtpRequest(OtpRequestInput(Some(email), None, Some(kindName))).Ok?
    requires RequestUser(t.users, ValidateOtpRequest(OtpRequestInput(Some(email), None, Some(kindName))).value).Ok?
    requires Strip(code) == code && code != ""
    requires forall j :: 0 <= j < |t.otps| ==> t.otps[j].createdAt < now
    requires now <= later <= now + TenMinutes
    ensures var sent := RequestOtpOutcome(t, OtpRequestInput(Some(email), None, Some(kindName)), code, id, now, true);
            var out := VerifyOtpOutcome(sent.1, OtpVerifyInput(Some(email), None, Some(code), Some(kindName)), later);
            sent.0 == Success(HTTP_200, CodeSent(id)) && out.0.Success? && out.1.otps[|t.otps|].isVerified
  {
    var reqIn := OtpRequestInput(Some(email), None, Some(kindName));
    var req := ValidateOtpRequest(reqIn).value;
    var userId := RequestUser(t.users, req).value;
    var vin := OtpVerifyInput(Some(email), None, Some(code), Some(kindName));
    var v := OtpVerify(req.contact, code, req.kind);
    SameFieldsVerify(reqIn, vin);
    RequestAppends(t, reqIn, code, id, now);
    var r := RequestedRecord(req, userId, code, id, now);
    RequestedRecordFacts(req, userId, code, id, now, later);
    var after := t.(otps := t.otps + [r]);
    NewestAppendedWins(t.otps, r, v.kind, v.code, v.contact.email, v.contact.phoneNumber);
    VerifyFoundRow(after, vin, v, |t.otps|, later);
  }

  /** The stored record matches its own request until it is verified,
      and has not expired ten minutes after it was made. */
  lemma RequestedRecordFacts(req: OtpRequest, userId: Option<Id>, code: string, id: Id, now: Instant, later: Instant)
    requires now <= later <= now + TenMinutes
    ensures var r := RequestedRecord(req, userId, code, id, now);
            && Matches(r, req.kind, code, req.contact.email, req.contact.phoneNumber)
            && r.createdAt == now && r.userId == userId && !IsExpired(r, later)
  {
  }

  /** A request by e-mail that passes validation and the account lookup
      stores one new record and reports the code sent. */
  lemma RequestAppends(t: Tables, input: OtpRequestInput, code: string, id: Id, now: Instant)
    requires ValidateOtpRequest(input).Ok? && input.email.Some?
    requires RequestUser(t.users, ValidateOtpRequest(input).value).Ok?
    ensures var req := ValidateOtpRequest(input).value;
            var r := RequestedRecord(req, RequestUser(t.users, req).value, code, id, now);
            RequestOtpOutcome(t, input, code, id, now, true) == (Success(HTTP_200, CodeSent(id)), t.(otps := t.otps + [r]))
  {
  }

  /** The verify serializer accepts what the request serializer accepted,
      with the stripped code added. */
  lemma SameFieldsVerify(req: OtpRequestInput, input: OtpVerifyInput)
    requires ValidateOtpRequest(req).Ok?
    requires input.email == req.email && input.phoneNumber == req.phoneNumber
    requires input.verificationType == req.verificationType
    requires input.otpCode.Some? && Strip(input.otpCode.value) != ""
    ensures ValidateOtpVerify(input)
            == Ok(OtpVerify(ValidateOtpRequest(req).value.contact, Strip(input.otpCode.value), ValidateOtpRequest(req).value.kind))
  {
    assert OtpRequestInput(input.email, input.phoneNumber, input.verificationType) == req;
  }

  /** `verify_otp` succeeds on a request whose newest candidate has not
      expired and names no missing account; that record is then verified. */
  lemma VerifyFoundRow(t: Tables, input: OtpVerifyInput, v: OtpVerify, k: nat, now: Instant)
    requires ValidateOtpVerify(input) == Ok(v)
    requires MostRecentRow(t.otps, v.kind, v.code, v.contact.email, v.contact.phoneNumber) == Some(k)
    requires !IsExpired(t.otps[k], now)
    requires t.otps[k].userId.Some? ==> UserRow(t.users, t.otps[k].userId.value).Some?
    ensures VerifyOtpOutcome(t, input, now).0.Success?
    ensures VerifyOtpOutcome(t, input, now).1.otps[k].isVerified
  {
    VerifyFoundRowOutcome(t, input, v, k, now);
    VerifyWithCodeFacts(t, k, v.kind, now);
  }

  /** Past validation, the lookup and the expiry check, `verify_otp` is
      the code-spending step on the row it found. */
  lemma VerifyFoundRowOutcome(t: Tables, input: OtpVerifyInput, v: OtpVerify, k: nat, now: Instant)
    requires ValidateOtpVerify(input) == Ok(v)
    requires MostRecentRow(t.otps, v.kind, v.code, v.contact.email, v.contact.phoneNumber) == Some(k)
    requires !IsExpired(t.otps[k], now)
    ensures VerifyOtpOutcome(t, input, now) == VerifyWithCode(t, k, v.kind, now)
  {
  }

  /** A matching record appended after records that were all created
      strictly earlier is the one `order_by('-created_at').first()` picks. */
  lemma NewestAppendedWins(otps: seq<OtpRecord>, r: OtpRecord, kind: OtpType, code: string,
                           email: Option<string>, phone: Option<string>)
    requires Matches(r, kind, code, email, phone)
    requires forall j :: 0 <= j < |otps| ==> otps[j].createdAt < r.createdAt
    ensures MostRecentRow(otps + [r], kind, code, email, phone) == Some(|otps|)
    ensures (otps + [r])[|otps|] == r
  {
    var all := otps + [r];
    MostRecentRowIsNewest(all, kind, code, email, phone, |otps|);
    assert all[|otps|] == r;
    assert forall j :: 0 <= j < |otps| ==> all[j] == otps[j];
  }

  /** `verify_login`: a login code, newest first; the record is marked
      verified before the account is looked at, so a code without an
      account is spent and still refused. */
  function VerifyLoginOutcome(t: Tables, input: OtpLoginInput, now: Instant): (out: (Response<OtpAnswer>, Tables))
    ensures out.1.users == t.users && |out.1.otps| == |t.otps|
    ensures out.0.Success? ==> out.0.body.LoggedIn? && exists i :: 0 <= i < |t.users| && out.0.body.user == t.users[i]
  {
    match ValidateOtpLogin(input)
    case Err(e) => (Failure(HTTP_400, e), t)
    case Ok(v) =>
      match MostRecentRow(t.otps, Login, v.code, v.contact.email, v.contact.phoneNumber)
      case None => (Failure(HTTP_400, InvalidCodeMessage), t)
      case Some(k) =>
        if IsExpired(t.otps[k], now) then (Failure(HTTP_400, ExpiredMessage), t)
        else
          var after := t.(otps := MarkVerified(t.otps, k, now));
          match t.otps[k].userId
          case None => (Failure(HTTP_400, LoginWithoutUserMessage), after)
          case Some(uid) =>
            match UserRow(t.users, uid)
            case None => (Failure(HTTP_400, "Login failed: " + MissingUserDetail), after)
            case Some(i) => (Success(HTTP_200, LoggedIn(t.users[i])), after)
  }

  /** A successful login is the newest unexpired login code's own account,
      and that code is spent. */
  lemma VerifyLoginFacts(t: Tables, input: OtpLoginInput, now: Instant)
    requires VerifyLoginOutcome(t, input, now).0.Success?
    ensures var v := ValidateOtpLogin(input).value;
            var m := MostRecentRow(t.otps, Login, v.code, v.contact.email, v.contact.phoneNumber);
            var out := VerifyLoginOutcome(t, input, now);
            && ValidateOtpLogin(input).Ok? && m.Some? && !IsExpired(t.otps[m.value], now)
            && t.otps[m.value].kind == Login
            && t.otps[m.value].userId == Some(out.0.body.user.id)
            && out.1.otps[m.value].isVerified
  {
    assert ValidateOtpLogin(input).Ok?;
    var v := ValidateOtpLogin(input).value;
    var m := MostRecentRow(t.otps, Login, v.code, v.contact.email, v.contact.phoneNumber);
    assert m.Some?;
    var k := m.value;
    assert !IsExpired(t.otps[k], now) && t.otps[k].userId.Some?;
    var i := UserRow(t.users, t.otps[k].userId.value);
    assert i.Some?;
    assert VerifyLoginOutcome(t, input, now)
        == (Success(HTTP_200, LoggedIn(t.users[i.value])), t.(otps := MarkVerified(t.otps, k, now)));
  }

  datatype ResetInput = ResetInput(
    email: Option<string>,
    phoneNumber: Option<string>,
    otpCode: Option<string>,
    newPassword: Option<string>)

  /** What `set_password` leaves in the user row; hashing is not modelled. */
  function WithPassword(u: User, password: string): User {
    u.(password := password)
  }

  /** `reset_password_verify`: the request's own presence checks, then a
      password-reset code, newest first. */
  function ResetPasswordOutcome(t: Tables, input: ResetInput, now: Instant): (out: (Response<OtpAnswer>, Tables))
    ensures |out.1.otps| == |t.otps| && |out.1.users| == |t.users|
  {
    if !TruthyString(input.otpCode) then (Failure(HTTP_400, CodeRequiredMessage), t)
    else if !TruthyString(input.newPassword) then (Failure(HTTP_400, PasswordRequiredMessage), t)
    else if !TruthyString(input.email) && !TruthyString(input.phoneNumber) then (Failure(HTTP_400, ResetNoContactMessage), t)
    else
      match MostRecentRow(t.otps, PasswordReset, input.otpCode.value, input.email, input.phoneNumber)
      case None => (Failure(HTTP_400, InvalidCodeMessage), t)
      case Some(k) =>
        if IsExpired(t.otps[k], now) then (Failure(HTTP_400, ResetExpiredMessage), t)
        else
          var otps := MarkVerified(t.otps, k, now);
          match t.otps[k].userId
          case None => (Failure(HTTP_400, ResetWithoutUserMessage), t.(otps := otps))
          case Some(uid) =>
            match UserRow(t.users, uid)
            case None => (Failure(HTTP_400, "Password reset failed: " + MissingUserDetail), t.(otps := otps))
            case Some(i) =>
              (Success(HTTP_200, PasswordChanged), Tables(t.users[i := WithPassword(t.users[i], input.newPassword.value)], otps))
  }

  /** The three presence checks come first and change nothing; a success
      changes the password of exactly the code's account and nothing else
      of any user. */
  lemma ResetPasswordFacts(t: Tables, input: ResetInput, now: Instant)
    ensures var out := ResetPasswordOutcome(t, input, now);
            && ((!TruthyString(input.otpCode) || !TruthyString(input.newPassword)
                 || (!TruthyString(input.email) && !TruthyString(input.phoneNumber)))
                ==> out.0.Failure? && out.0.code == HTTP_400 && out.1 == t)
            && (out.0.Success? ==>
                  var m := MostRecentRow(t.otps, PasswordReset, input.otpCode.value, input.email, input.phoneNumber);
                  && m.Some? && !IsExpired(t.otps[m.value], now) && out.1.otps[m.value].isVerified
                  && t.otps[m.value].userId.Some?
                  && var i := UserRow(t.users, t.otps[m.value].userId.value).value;
                  && out.1.users == t.users[i := t.users[i].(password := input.newPassword.value)])
  {
  }

  /* ---------------- the store ---------------- */

  /** The user and code tables the endpoints read and write. */
  class OtpService {
    var users: seq<User>
    var otps: seq<OtpRecord>

    function State(): Tables
      reads this
    {
      Tables(users, otps)
    }

    constructor (accounts: seq<User>)
      ensures users == accounts && otps == []
    {
      users := accounts;
      otps := [];
    }

    method RequestOtp(input: OtpRequestInput, code: string, id: Id, now: Instant, emailSent: bool)
      returns (resp: Response<OtpAnswer>)
      modifies this
      ensures (resp, State()) == RequestOtpOutcome(old(State()), input, code, id, now, emailSent)
    {
      ghost var t0 := State();
      var v := ValidateOtpRequest(input);
      if v.Err? {
        return Failure(HTTP_400, v.error);
      }
      var req := v.value;
      var user := RequestUser(users, req);
      if user.Err? {
        return Failure(HTTP_404, user.error);
      }
      otps := otps + [RequestedRecord(req, user.value, code, id, now)];
      assert State() == RequestOtpOutcome(t0, input, code, id, now, emailSent).1;
      var success := false;
      if req.contact.email.Some? {
        success := emailSent;
      }
      if !success {
        return Failure(HTTP_500, SendFailedMessage);
      }
      return Success(HTTP_200, CodeSent(id));
    }

    /** Spends row `k` and, when it names an existing account, applies the
        flag updates of `kind` to that account. Answers the row's user row. */
    method SpendCode(k: nat, now: Instant) returns (row: Option<nat>)
      requires k < |otps|
      modifies this
      ensures otps == MarkVerified(old(otps), k, now) && users == old(users)
      ensures row == (if old(otps)[k].userId.Some? then UserRow(users, old(otps)[k].userId.value) else None)
    {
      var uid := otps[k].userId;
      otps := otps[k := Stamped(otps[k].(isVerified := true), now)];
      row := None;
      if uid.Some? {
        row := UserRow(users, uid.value);
      }
    }

    method VerifyOtp(input: OtpVerifyInput, now: Instant) returns (resp: Response<OtpAnswer>)
      modifies this
      ensures (resp, State()) == VerifyOtpOutcome(old(State()), input, now)
    {
      var vr := ValidateOtpVerify(input);
      if vr.Err? {
        return Failure(HTTP_400, vr.error);
      }
      var v := vr.value;
      var m := MostRecentRow(otps, v.kind, v.code, v.contact.email, v.contact.phoneNumber);
      if m.None? {
        return Failure(HTTP_400, InvalidCodeMessage);
      }
      var k := m.value;
      if IsExpired(otps[k], now) {
        return Failure(HTTP_400, ExpiredMessage);
      }
      resp := VerifyCode(k, v.kind, now);
    }

    /** The rest of `verify_otp` once row `k` is found and unexpired: the
        code is spent and its account, if it has one, is updated. */
    method VerifyCode(k: nat, kind: OtpType, now: Instant) returns (resp: Response<OtpAnswer>)
      requires k < |otps|
      modifies this
      ensures (resp, State()) == VerifyWithCode(old(State()), k, kind, now)
    {
      var linked := otps[k].userId.Some?;
      var row := SpendCode(k, now);
      if !linked {
        return Success(HTTP_200, Verified(kind));
      }
      if row.None? {
        return Failure(HTTP_400, "Verification failed: " + MissingUserDetail);
      }
      var user := ApplyVerification(users[row.value], kind);
      users := users[row.value := user];
      if kind == Login {
        return Success(HTTP_200, LoggedIn(user));
      }
      return Success(HTTP_200, Verified(kind));
    }

    method VerifyLogin(input: OtpLoginInput, now: Instant) returns (resp: Response<OtpAnswer>)
      modifies this
      ensures (resp, State()) == VerifyLoginOutcome(old(State()), input, now)
    {
      var vr := ValidateOtpLogin(input);
      if vr.Err? {
        return Failure(HTTP_400, vr.error);
      }
      var v := vr.value;
      var m := MostRecentRow(otps, Login, v.code, v.contact.email, v.contact.phoneNumber);
      if m.None? {
        return Failure(HTTP_400, InvalidCodeMessage);
      }
      var k := m.value;
      if IsExpired(otps[k], now) {
        return Failure(HTTP_400, ExpiredMessage);
      }
      var linked := otps[k].userId.Some?;
      var row := SpendCode(k, now);
      if !linked {
        return Failure(HTTP_400, LoginWithoutUserMessage);
      }
      if row.None? {
        return Failure(HTTP_400, "Login failed: " + MissingUserDetail);
      }
      return Success(HTTP_200, LoggedIn(users[row.value]));
    }

    method ResetPasswordVerify(input: ResetInput, now: Instant) returns (resp: Response<OtpAnswer>)
      modifies this
      ensures (resp, State()) == ResetPasswordOutcome(old(State()), input, now)
    {
      if !TruthyString(input.otpCode) {
        return Failure(HTTP_400, CodeRequiredMessage);
      }
      if !TruthyString(input.newPassword) {
        return Failure(HTTP_400, PasswordRequiredMessage);
      }
      if !TruthyString(input.email) && !TruthyString(input.phoneNumber) {
        return Failure(HTTP_400, ResetNoContactMessage);
      }
      var m := MostRecentRow(otps, PasswordReset, input.otpCode.value, input.email, input.phoneNumber);
      if m.None? {
        return Failure(HTTP_400, InvalidCodeMessage);
      }
      var k := m.value;
      if IsExpired(otps[k], now) {
        return Failure(HTTP_400, ResetExpiredMessage);
      }
      var linked := otps[k].userId.Some?;
      var row := SpendCode(k, now);
      if !linked {
        return Failure(HTTP_400, ResetWithoutUserMessage);
      }
      if row.None? {
        return Failure(HTTP_400, "Password reset failed: " + MissingUserDetail);
      }
      users := users[row.value := WithPassword(users[row.value], input.newPassword.value)];
      return Success(HTTP_200, PasswordChanged);
    }

    /** `increment_attempts` on row `k`. */
    method IncrementAttempts(k: nat, now: Instant)
      requires k < |otps|
      modifies this
      ensures otps == old(otps)[k := WithAttempt(old(otps)[k], now)] && users == old(users)
      ensures old(otps)[k].expiresAt.Some? ==> otps[k] == old(otps)[k].(attempts := old(otps)[k].attempts + 1)
    {
      otps := otps[k := Stamped(otps[k].(attempts := otps[k].attempts + 1), now)];
    }
  }
}
