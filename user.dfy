/** The domain layer of the auth service: users, their roles, registration and
    profile data, sessions, and the operations the service applies to them.

    Everything the Go code takes from its environment is a parameter here:
    each reading of the clock is an `Instant`, each generated identifier a
    `Uuid`, and the bcrypt library a `Bcrypt` value together with the salt it
    would draw at random. */
module Domain {

  datatype Option<T> = None | Some(value: T)

  /** The one error `NewUser` can return: the password hash could not be made. */
  datatype HashError = HashFailed

  datatype Result<T> = Ok(value: T) | Err(error: HashError)

  /** A 16-byte UUID. */
  type Uuid = s: seq<bv8> | |s| == 16
    witness [0, 0, 0, 0, 0, 0, 0, 0, 0, 0, 0, 0, 0, 0, 0, 0]

  /** A point in time, in nanoseconds on a single timeline. */
  type Instant = int

  /** A role is a string; these are the three the service defines. */
  type Role = string

  const RoleStudent: Role := "student"
  const RoleAdmin: Role := "admin"
  const RoleModerator: Role := "moderator"

  datatype UserRegistration = UserRegistration(
    email: string, password: string, firstName: string, lastName: string, campusId: string)

  datatype UserLogin = UserLogin(email: string, password: string)

  /** Profile update data: an empty name or a missing campus means "keep". */
  datatype UserProfile = UserProfile(firstName: string, lastName: string, campusId: Option<string>)

  datatype TokenPair = TokenPair(accessToken: string, refreshToken: string, expiresAt: Instant)

  // ---------------------------------------------------------------------------
  // Password hashing

  type Salt = seq<bv8>

  /** The cost factor the service passes to bcrypt. */
  const DefaultCost: int := 10

  /** The two bcrypt calls the domain makes. `generate(password, cost, salt)`
      is GenerateFromPassword with its random salt made explicit (`None` is
      its error return); `compare(hash, password)` is CompareHashAndPassword
      returning no error. */
  datatype Bcrypt = Bcrypt(
    generate: (string, int, Salt) -> Option<string>,
    compare: (string, string) -> bool)

  /** What the service relies on from bcrypt: a hash it generates from a
      password is accepted by the comparison for that password. */
  ghost predicate Sound(b: Bcrypt) {
    forall password, cost, salt ::
      b.generate(password, cost, salt).Some? ==>
        b.compare(b.generate(password, cost, salt).value, password)
  }

  /** `hash` is an output of the generator for `password`, whatever cost and salt. */
  ghost predicate HashOf(b: Bcrypt, hash: string, password: string) {
    exists cost, salt :: b.generate(password, cost, salt) == Some(hash)
  }

  // ---------------------------------------------------------------------------
  // Users

  /** The value of a user record, field by field. */
  datatype UserRecord = UserRecord(
    id: Uuid,
    email: string,
    password: string,
    firstName: string,
    lastName: string,
    campusId: Option<string>,
    role: Role,
    isActive: bool,
    isVerified: bool,
    createdAt: Instant,
    updatedAt: Instant,
    lastLoginAt: Option<Instant>)

  /** The fields that no user operation changes after creation. */
  predicate SameAccount(a: UserRecord, b: UserRecord) {
    a.id == b.id && a.email == b.email && a.password == b.password &&
    a.role == b.role && a.createdAt == b.createdAt
  }

  /** The user that registration creates. `firstNow` and `secondNow` are the
      two clock readings taken for the creation and update stamps. */
  function NewUser(reg: UserRegistration, bcrypt: Bcrypt, salt: Salt, id: Uuid,
                   firstNow: Instant, secondNow: Instant): (r: Result<UserRecord>)
    ensures r.Err? <==> bcrypt.generate(reg.password, DefaultCost, salt).None?
    ensures r.Ok? ==>
      bcrypt.generate(reg.password, DefaultCost, salt) == Some(r.value.password)
    ensures r.Ok? ==>
      r.value.id == id && r.value.email == reg.email &&
      r.value.firstName == reg.firstName && r.value.lastName == reg.lastName &&
      r.value.campusId == Some(reg.campusId)
    ensures r.Ok? ==>
      r.value.role == RoleStudent && r.value.isActive && !r.value.isVerified &&
      r.value.lastLoginAt == None &&
      r.value.createdAt == firstNow && r.value.updatedAt == secondNow
    ensures r.Ok? && Sound(bcrypt) ==> PasswordMatches(r.value, reg.password, bcrypt)
  {
    match bcrypt.generate(reg.password, DefaultCost, salt)
    case None => Err(HashFailed)
    case Some(hashed) =>
      Ok(UserRecord(id, reg.email, hashed, reg.firstName, reg.lastName,
                    Some(reg.campusId), RoleStudent, true, false,
                    firstNow, secondNow, None))
  }

  /** Whether `candidate` is the password the user's stored hash was made from. */
  function PasswordMatches(u: UserRecord, candidate: string, bcrypt: Bcrypt): (ok: bool)
    ensures Sound(bcrypt) && HashOf(bcrypt, u.password, candidate) ==> ok
  {
    bcrypt.compare(u.password, candidate)
  }

  /** The user after a login at `now`. */
  function WithLastLogin(u: UserRecord, now: Instant): (r: UserRecord)
    ensures r.lastLoginAt == Some(now) && r.updatedAt == now
    ensures r == u.(lastLoginAt := r.lastLoginAt, updatedAt := r.updatedAt)
  {
    u.(lastLoginAt := Some(now), updatedAt := now)
  }

  /** The user after a profile update at `now`. */
  function WithProfile(u: UserRecord, p: UserProfile, now: Instant): (r: UserRecord)
    ensures p.firstName != "" ==> r.firstName == p.firstName
    ensures p.firstName == "" ==> r.firstName == u.firstName
    ensures p.lastName != "" ==> r.lastName == p.lastName
    ensures p.lastName == "" ==> r.lastName == u.lastName
    ensures p.campusId.Some? ==> r.campusId == p.campusId
    ensures p.campusId.None? ==> r.campusId == u.campusId
    ensures r.updatedAt == now
    ensures r == u.(firstName := r.firstName, lastName := r.lastName,
                    campusId := r.campusId, updatedAt := r.updatedAt)
  {
    var first := if p.firstName != "" then p.firstName else u.firstName;
    var last := if p.lastName != "" then p.lastName else u.lastName;
    var campus := if p.campusId != None then p.campusId else u.campusId;
    u.(firstName := first, lastName := last, campusId := campus, updatedAt := now)
  }

  /** The user after deactivation at `now`. */
  function WithDeactivation(u: UserRecord, now: Instant): (r: UserRecord)
    ensures !r.isActive && r.updatedAt == now
    ensures r == u.(isActive := r.isActive, updatedAt := r.updatedAt)
  {
    u.(isActive := false, updatedAt := now)
  }

  /** The user after verification at `now`. */
  function WithVerification(u: UserRecord, now: Instant): (r: UserRecord)
    ensures r.isVerified && r.updatedAt == now
    ensures r == u.(isVerified := r.isVerified, updatedAt := r.updatedAt)
  {
    u.(isVerified := true, updatedAt := now)
  }

  /** Applying the same profile again only moves the update stamp. */
  lemma ProfileIdempotent(u: UserRecord, p: UserProfile, t1: Instant, t2: Instant)
    ensures WithProfile(WithProfile(u, p, t1), p, t2) == WithProfile(u, p, t2)
  {
  }

  /** A second deactivation only moves the update stamp. */
  lemma DeactivationIdempotent(u: UserRecord, t1: Instant, t2: Instant)
    ensures WithDeactivation(WithDeactivation(u, t1), t2) == WithDeactivation(u, t2)
  {
  }

  /** A second verification only moves the update stamp. */
  lemma VerificationIdempotent(u: UserRecord, t1: Instant, t2: Instant)
    ensures WithVerification(WithVerification(u, t1), t2) == WithVerification(u, t2)
  {
  }

  /** A user object; its methods update its fields in place. */
  class User {
    var id: Uuid
    var email: string
    var password: string
    var firstName: string
    var lastName: string
    var campusId: Option<string>
    var role: Role
    var isActive: bool
    var isVerified: bool
    var createdAt: Instant
    var updatedAt: Instant
    var lastLoginAt: Option<Instant>

    /** The current value of the object's fields. */
    function Record(): (r: UserRecord)
      reads this
    {
      UserRecord(id, email, password, firstName, lastName, campusId, role,
                 isActive, isVerified, createdAt, updatedAt, lastLoginAt)
    }

    /** The object holding the record `r` (what `&User{...}` allocates). */
    constructor (r: UserRecord)
      ensures Record() == r
    {
      id, email, password := r.id, r.email, r.password;
      firstName, lastName, campusId := r.firstName, r.lastName, r.campusId;
      role, isActive, isVerified := r.role, r.isActive, r.isVerified;
      createdAt, updatedAt, lastLoginAt := r.createdAt, r.updatedAt, r.lastLoginAt;
    }

    function CheckPassword(candidate: string, bcrypt: Bcrypt): (ok: bool)
      reads this
      ensures Sound(bcrypt) && HashOf(bcrypt, password, candidate) ==> ok
    {
      PasswordMatches(Record(), candidate, bcrypt)
    }

    method UpdateLastLogin(now: Instant)
      modifies this
      ensures Record() == WithLastLogin(old(Record()), now)
    {
      lastLoginAt := Some(now);
      updatedAt := now;
    }

    method UpdateProfile(profile: UserProfile, now: Instant)
      modifies this
      ensures Record() == WithProfile(old(Record()), profile, now)
    {
      if profile.firstName != "" {
        firstName := profile.firstName;
      }
      if profile.lastName != "" {
        lastName := profile.lastName;
      }
      if profile.campusId != None {
        campusId := profile.campusId;
      }
      updatedAt := now;
    }

    method Deactivate(now: Instant)
      modifies this
      ensures Record() == WithDeactivation(old(Record()), now)
    {
      isActive := false;
      updatedAt := now;
    }

    method Verify(now: Instant)
      modifies this
      ensures Record() == WithVerification(old(Record()), now)
    {
      isVerified := true;
      updatedAt := now;
    }
  }

  // ---------------------------------------------------------------------------
  // Sessions

  /** The value of a session record, field by field. */
  datatype SessionRecord = SessionRecord(
    id: Uuid,
    userId: Uuid,
    refreshToken: string,
    expiresAt: Instant,
    createdAt: Instant,
    lastUsedAt: Instant,
    ipAddress: string,
    userAgent: string,
    isRevoked: bool)

  /** The fields that no session operation changes after creation. */
  predicate SameSession(a: SessionRecord, b: SessionRecord) {
    a.id == b.id && a.userId == b.userId && a.refreshToken == b.refreshToken &&
    a.expiresAt == b.expiresAt && a.createdAt == b.createdAt &&
    a.ipAddress == b.ipAddress && a.userAgent == b.userAgent
  }

  /** A new session for `userId`. `firstNow` and `secondNow` are the two clock
      readings taken for the creation and last-use stamps. */
  function NewSession(id: Uuid, userId: Uuid, refreshToken: string, ipAddress: string,
                      userAgent: string, expiresAt: Instant,
                      firstNow: Instant, secondNow: Instant): (s: SessionRecord)
    ensures s.id == id && s.userId == userId && s.refreshToken == refreshToken &&
            s.ipAddress == ipAddress && s.userAgent == userAgent && s.expiresAt == expiresAt
    ensures s.createdAt == firstNow && s.lastUsedAt == secondNow
    ensures !s.isRevoked
  {
    SessionRecord(id, userId, refreshToken, expiresAt, firstNow, secondNow,
                  ipAddress, userAgent, false)
  }

  /** Whether the session has expired at `now`: `now` is strictly after `expiresAt`. */
  predicate Expired(s: SessionRecord, now: Instant): (expired: bool)
    ensures now <= s.expiresAt ==> !expired
    ensures s.expiresAt < now ==> expired
  {
    now > s.expiresAt
  }

  /** The session after revocation. */
  function WithRevocation(s: SessionRecord): (r: SessionRecord)
    ensures r.isRevoked
    ensures r == s.(isRevoked := r.isRevoked)
  {
    s.(isRevoked := true)
  }

  /** The session after a use at `now`. */
  function WithLastUsed(s: SessionRecord, now: Instant): (r: SessionRecord)
    ensures r.lastUsedAt == now
    ensures r == s.(lastUsedAt := r.lastUsedAt)
  {
    s.(lastUsedAt := now)
  }

  /** A session is still live at its expiry instant. */
  lemma ExpiryBoundary(s: SessionRecord)
    ensures !Expired(s, s.expiresAt)
  {
  }

  /** Once expired, a session stays expired as time advances. */
  lemma ExpiryMonotone(s: SessionRecord, t1: Instant, t2: Instant)
    requires Expired(s, t1) && t1 <= t2
    ensures Expired(s, t2)
  {
  }

  /** Revoking twice is revoking once. */
  lemma RevocationIdempotent(s: SessionRecord)
    ensures WithRevocation(WithRevocation(s)) == WithRevocation(s)
  {
  }

  /** A session object; its methods update its fields in place. */
  class Session {
    var id: Uuid
    var userId: Uuid
    var refreshToken: string
    var expiresAt: Instant
    var createdAt: Instant
    var lastUsedAt: Instant
    var ipAddress: string
    var userAgent: string
    var isRevoked: bool

    /** The current value of the object's fields. */
    function Record(): (r: SessionRecord)
      reads this
    {
      SessionRecord(id, userId, refreshToken, expiresAt, createdAt, lastUsedAt,
                    ipAddress, userAgent, isRevoked)
    }

    /** The object holding the record `r` (what `&Session{...}` allocates). */
    constructor (r: SessionRecord)
      ensures Record() == r
    {
      id, userId, refreshToken := r.id, r.userId, r.refreshToken;
      expiresAt, createdAt, lastUsedAt := r.expiresAt, r.createdAt, r.lastUsedAt;
      ipAddress, userAgent, isRevoked := r.ipAddress, r.userAgent, r.isRevoked;
    }

    /** `now` is the clock reading the Go method takes. */
    function IsExpired(now: Instant): (expired: bool)
      reads this
      ensures expired <==> expiresAt < now
      ensures expired == Expired(Record(), now)
    {
      Expired(Record(), now)
    }

    method Revoke()
      modifies this
      ensures Record() == WithRevocation(old(Record()))
    {
      isRevoked := true;
    }

    method UpdateLastUsed(now: Instant)
      modifies this
      ensures Record() == WithLastUsed(old(Record()), now)
    {
      lastUsedAt := now;
    }
  }
}
