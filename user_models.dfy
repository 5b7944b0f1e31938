/** The user and one-time-code records of users/models.py: role predicates,
    the verification flags, and the expiry stamping, expiry test and attempt
    counting of `OTPVerification`. Instants are microseconds. */
module Users {
  import opened Wrappers
  import M = MarketModels

  type Id = M.Id
  type Instant = M.Instant

  const RoleUser := "user"
  const RoleSeller := "seller"
  const RoleAdmin := "admin"

  datatype User = User(
    id: Id,
    email: string,
    phoneNumber: Option<string>,
    role: string,
    isVerified: bool,
    emailVerified: bool,
    phoneVerified: bool,
    password: string)
  {
    predicate IsBuyer() { role == RoleUser }
    predicate IsSeller() { role == RoleSeller }
    predicate IsAdmin() { role == RoleAdmin }
  }

  /** A user as created with only the required fields: role user, nothing
      verified. */
  function NewUser(id: Id, email: string, phoneNumber: Option<string>, password: string): (u: User)
    ensures u.id == id && u.email == email && u.phoneNumber == phoneNumber && u.password == password
    ensures u.role == RoleUser && u.IsBuyer()
    ensures !u.isVerified && !u.emailVerified && !u.phoneVerified
  {
    User(id, email, phoneNumber, RoleUser, false, false, false, password)
  }

  /** The three role predicates are mutually exclusive, and each holds
      exactly for its role name. */
  lemma AtMostOneRole(u: User)
    ensures !(u.IsBuyer() && u.IsSeller()) && !(u.IsBuyer() && u.IsAdmin()) && !(u.IsSeller() && u.IsAdmin())
    ensures u.role !in [RoleUser, RoleSeller, RoleAdmin] ==> !u.IsBuyer() && !u.IsSeller() && !u.IsAdmin()
  {
  }

  /** `OTPVerification.TYPE_CHOICES`. */
  datatype OtpType = EmailCheck | PhoneCheck | PasswordReset | Login

  function OtpTypeName(t: OtpType): string {
    match t
    case EmailCheck => "email"
    case PhoneCheck => "phone"
    case PasswordReset => "password_reset"
    case Login => "login"
  }

  function ParseOtpType(s: string): (r: Option<OtpType>)
    ensures r.Some? <==> s in ["email", "phone", "password_reset", "login"]
  {
    if s == "email" then Some(EmailCheck)
    else if s == "phone" then Some(PhoneCheck)
    else if s == "password_reset" then Some(PasswordReset)
    else if s == "login" then Some(Login)
    else None
  }

  lemma OtpTypeChoicesRoundTrip(t: OtpType, s: string)
    ensures ParseOtpType(OtpTypeName(t)) == Some(t)
    ensures ParseOtpType(s).Some? ==> OtpTypeName(ParseOtpType(s).value) == s
  {
  }

  datatype OtpRecord = OtpRecord(
    id: Id,
    userId: Option<Id>,
    email: Option<string>,
    phoneNumber: Option<string>,
    code: string,
    kind: OtpType,
    isVerified: bool,
    createdAt: Instant,
    expiresAt: Option<Instant>,
    attempts: int)

  /** Ten minutes in microseconds. */
  const TenMinutes: int := 600_000_000

  /** A record as passed to `objects.create`, before `save` runs: not
      verified, no attempts, no expiry yet. */
  function NewOtp(id: Id, userId: Option<Id>, email: Option<string>, phoneNumber: Option<string>,
                  code: string, kind: OtpType, now: Instant): (r: OtpRecord)
    ensures r.id == id && r.userId == userId && r.email == email && r.phoneNumber == phoneNumber
    ensures r.code == code && r.kind == kind && r.createdAt == now
    ensures !r.isVerified && r.attempts == 0 && r.expiresAt.None?
  {
    OtpRecord(id, userId, email, phoneNumber, code, kind, false, now, None, 0)
  }

  /** What `save` does to a record: stamp ten minutes from now when no
      expiry is set. */
  function Stamped(r: OtpRecord, now: Instant): (s: OtpRecord)
    ensures s.expiresAt.Some?
    ensures r.expiresAt.Some? ==> s == r
    ensures r.expiresAt.None? ==> s == r.(expiresAt := Some(now + TenMinutes))
  {
    if r.expiresAt.None? then r.(expiresAt := Some(now + TenMinutes)) else r
  }

  /** Saving again never moves the expiry: stamping is idempotent, whatever
      the instant of the second save. */
  lemma ResaveNeverExtends(r: OtpRecord, first: Instant, later: Instant)
    ensures Stamped(Stamped(r, first), later) == Stamped(r, first)
    ensures Stamped(Stamped(r, first), later).expiresAt == Stamped(r, first).expiresAt
  {
  }

  /** `is_expired`: strictly after the expiry instant. A record with no
      expiry (never saved) is not compared. */
  predicate IsExpired(r: OtpRecord, now: Instant) {
    r.expiresAt.Some? && now > r.expiresAt.value
  }

  /** A freshly saved code is valid up to and including ten minutes after
      its creation and expired any time later. */
  lemma FreshCodeLifetime(id: Id, userId: Option<Id>, email: Option<string>, phoneNumber: Option<string>,
                          code: string, kind: OtpType, now: Instant, t: Instant)
    ensures var r := Stamped(NewOtp(id, userId, email, phoneNumber, code, kind, now), now);
      IsExpired(r, t) <==> t > now + TenMinutes
  {
  }

  /** `increment_attempts`: one more attempt, then `save`. */
  function WithAttempt(r: OtpRecord, now: Instant): OtpRecord {
    Stamped(r.(attempts := r.attempts + 1), now)
  }

  /** `n` calls of `increment_attempts`. */
  function AfterAttempts(r: OtpRecord, n: nat, now: Instant): OtpRecord
  {
    if n == 0 then r else WithAttempt(AfterAttempts(r, n - 1, now), now)
  }

  /** Each call adds exactly one attempt and changes nothing else of a saved
      record, so `n` calls add `n`. */
  lemma {:induction false} AttemptsCountCalls(r: OtpRecord, n: nat, now: Instant)
    requires r.expiresAt.Some?
    ensures AfterAttempts(r, n, now) == r.(attempts := r.attempts + n)
  {
    if n > 0 {
      AttemptsCountCalls(r, n - 1, now);
    }
  }

  /** The flag updates of a successful `verify_otp` for the record's user:
      an email code verifies the email, and the account when the phone is
      verified or there is no phone number; a phone code verifies the phone,
      and the account when the email is verified. No flag is ever cleared. */
  function ApplyVerification(u: User, kind: OtpType): (v: User)
    ensures v.id == u.id && v.email == u.email && v.phoneNumber == u.phoneNumber
    ensures v.role == u.role && v.password == u.password
    ensures (u.isVerified ==> v.isVerified) && (u.emailVerified ==> v.emailVerified)
    ensures u.phoneVerified ==> v.phoneVerified
  {
    match kind
    case EmailCheck =>
      u.(emailVerified := true, isVerified := u.isVerified || u.phoneVerified || !TruthyString(u.phoneNumber))
    case PhoneCheck =>
      u.(phoneVerified := true, isVerified := u.isVerified || u.emailVerified)
    case _ => u
  }

  /** An email code sets the account flag exactly when it was set, the
      phone is verified, or there is no phone number; a phone code exactly
      when it was set or the email is verified; the other codes touch no
      flag. */
  lemma VerificationFlagRule(u: User, kind: OtpType)
    ensures kind == EmailCheck ==>
              ApplyVerification(u, kind).emailVerified
              && (ApplyVerification(u, kind).isVerified <==>
                    u.isVerified || u.phoneVerified || !TruthyString(u.phoneNumber))
              && ApplyVerification(u, kind).phoneVerified == u.phoneVerified
    ensures kind == PhoneCheck ==>
              ApplyVerification(u, kind).phoneVerified
              && (ApplyVerification(u, kind).isVerified <==> u.isVerified || u.emailVerified)
              && ApplyVerification(u, kind).emailVerified == u.emailVerified
    ensures kind == Login || kind == PasswordReset ==> ApplyVerification(u, kind) == u
  {
  }

  /** Verifying both the email and the phone verifies the account, in
      either order. */
  lemma BothChannelsVerifyAccount(u: User)
    ensures ApplyVerification(ApplyVerification(u, EmailCheck), PhoneCheck).isVerified
    ensures ApplyVerification(ApplyVerification(u, PhoneCheck), EmailCheck).isVerified
  {
  }
}
