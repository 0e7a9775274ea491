/** What holds of a user or a session over any sequence of the domain's
    operations: the fields no operation touches keep their creation values,
    and each flag and stamp is determined by the operations that set it. */
module Lifecycle {
  import opened Domain

  /** One call of a mutating User method, with the clock reading it takes. */
  datatype UserOp =
    | LastLogin(at: Instant)
    | ProfileUpdate(profile: UserProfile, at: Instant)
    | Deactivation(at: Instant)
    | Verification(at: Instant)

  function Step(u: UserRecord, op: UserOp): (r: UserRecord) {
    match op
    case LastLogin(at) => WithLastLogin(u, at)
    case ProfileUpdate(p, at) => WithProfile(u, p, at)
    case Deactivation(at) => WithDeactivation(u, at)
    case Verification(at) => WithVerification(u, at)
  }

  /** The user after the operations `ops`, first to last. */
  function Replay(u: UserRecord, ops: seq<UserOp>): (r: UserRecord)
    decreases |ops|
  {
    if ops == [] then u else Replay(Step(u, ops[0]), ops[1..])
  }

  /** Identity, email, password hash, role and creation stamp never change. */
  lemma {:induction false} ReplayKeepsAccount(u: UserRecord, ops: seq<UserOp>)
    ensures SameAccount(Replay(u, ops), u)
    decreases |ops|
  {
    if ops != [] {
      ReplayKeepsAccount(Step(u, ops[0]), ops[1..]);
    }
  }

  /** A user is active exactly when it started active and was never deactivated. */
  lemma {:induction false} ReplayActive(u: UserRecord, ops: seq<UserOp>)
    ensures Replay(u, ops).isActive <==>
            u.isActive && forall i :: 0 <= i < |ops| ==> !ops[i].Deactivation?
    decreases |ops|
  {
    if ops != [] {
      ReplayActive(Step(u, ops[0]), ops[1..]);
      assert forall i :: 1 <= i < |ops| ==> ops[i] == ops[1..][i - 1];
    }
  }

  /** A user is verified exactly when it started verified or was verified by some operation. */
  lemma {:induction false} ReplayVerified(u: UserRecord, ops: seq<UserOp>)
    ensures Replay(u, ops).isVerified <==>
            u.isVerified || exists i :: 0 <= i < |ops| && ops[i].Verification?
    decreases |ops|
  {
    if ops != [] {
      ReplayVerified(Step(u, ops[0]), ops[1..]);
      if Replay(u, ops).isVerified && !u.isVerified && !ops[0].Verification? {
        var j :| 0 <= j < |ops[1..]| && ops[1..][j].Verification?;
        assert ops[j + 1].Verification?;
      }
      if exists i :: 0 <= i < |ops| && ops[i].Verification? {
        var i :| 0 <= i < |ops| && ops[i].Verification?;
        if i > 0 {
          assert ops[1..][i - 1].Verification?;
        }
      }
    }
  }

  /** Every operation stamps the record: after a non-empty sequence the
      update stamp is the clock reading of the last operation. */
  lemma {:induction false} ReplayUpdatedAt(u: UserRecord, ops: seq<UserOp>)
    requires ops != []
    ensures Replay(u, ops).updatedAt == ops[|ops| - 1].at
    decreases |ops|
  {
    if |ops| == 1 {
      assert Replay(u, ops) == Replay(Step(u, ops[0]), []);
    } else {
      ReplayUpdatedAt(Step(u, ops[0]), ops[1..]);
    }
  }

  /** The last login stamp is that of the last login in the sequence. */
  lemma {:induction false} ReplayLastLogin(u: UserRecord, ops: seq<UserOp>, i: nat)
    requires i < |ops| && ops[i].LastLogin?
    requires forall j :: i < j < |ops| ==> !ops[j].LastLogin?
    ensures Replay(u, ops).lastLoginAt == Some(ops[i].at)
    decreases |ops|
  {
    if i == 0 {
      ReplayWithoutLogin(Step(u, ops[0]), ops[1..]);
    } else {
      ReplayLastLogin(Step(u, ops[0]), ops[1..], i - 1);
    }
  }

  /** Without a login the last login stamp keeps its value. */
  lemma {:induction false} ReplayWithoutLogin(u: UserRecord, ops: seq<UserOp>)
    requires forall j :: 0 <= j < |ops| ==> !ops[j].LastLogin?
    ensures Replay(u, ops).lastLoginAt == u.lastLoginAt
    decreases |ops|
  {
    if ops != [] {
      ReplayWithoutLogin(Step(u, ops[0]), ops[1..]);
    }
  }

  /** Without a profile update the names and the campus keep their values. */
  lemma {:induction false} ReplayWithoutProfileUpdate(u: UserRecord, ops: seq<UserOp>)
    requires forall j :: 0 <= j < |ops| ==> !ops[j].ProfileUpdate?
    ensures var r := Replay(u, ops);
            r.firstName == u.firstName && r.lastName == u.lastName && r.campusId == u.campusId
    decreases |ops|
  {
    if ops != [] {
      ReplayWithoutProfileUpdate(Step(u, ops[0]), ops[1..]);
    }
  }

  /** A registered user stays a student whose registration password is
      accepted, whatever operations follow. */
  lemma RegisteredUserLifetime(reg: UserRegistration, bcrypt: Bcrypt, salt: Salt, id: Uuid,
                               firstNow: Instant, secondNow: Instant, ops: seq<UserOp>)
    requires Sound(bcrypt)
    requires NewUser(reg, bcrypt, salt, id, firstNow, secondNow).Ok?
    ensures var r := Replay(NewUser(reg, bcrypt, salt, id, firstNow, secondNow).value, ops);
            r.id == id && r.email == reg.email && r.role == RoleStudent &&
            r.createdAt == firstNow && PasswordMatches(r, reg.password, bcrypt)
  {
    var u := NewUser(reg, bcrypt, salt, id, firstNow, secondNow).value;
    ReplayKeepsAccount(u, ops);
  }

  /** One call of a mutating Session method, with the clock reading it takes. */
  datatype SessionOp =
    | Revocation
    | Use(at: Instant)

  function SessionStep(s: SessionRecord, op: SessionOp): (r: SessionRecord) {
    match op
    case Revocation => WithRevocation(s)
    case Use(at) => WithLastUsed(s, at)
  }

  /** The session after the operations `ops`, first to last. */
  function ReplaySession(s: SessionRecord, ops: seq<SessionOp>): (r: SessionRecord)
    decreases |ops|
  {
    if ops == [] then s else ReplaySession(SessionStep(s, ops[0]), ops[1..])
  }

  /** Owner, token, client data, creation and expiry never change, so the
      session expires at the same instant whatever is done to it. */
  lemma {:induction false} ReplaySessionKeeps(s: SessionRecord, ops: seq<SessionOp>, now: Instant)
    ensures SameSession(ReplaySession(s, ops), s)
    ensures Expired(ReplaySession(s, ops), now) <==> Expired(s, now)
    decreases |ops|
  {
    if ops != [] {
      ReplaySessionKeeps(SessionStep(s, ops[0]), ops[1..], now);
    }
  }

  /** A session is revoked exactly when it started revoked or some operation revoked it. */
  lemma {:induction false} ReplaySessionRevoked(s: SessionRecord, ops: seq<SessionOp>)
    ensures ReplaySession(s, ops).isRevoked <==>
            s.isRevoked || exists i :: 0 <= i < |ops| && ops[i].Revocation?
    decreases |ops|
  {
    if ops != [] {
      ReplaySessionRevoked(SessionStep(s, ops[0]), ops[1..]);
      if ReplaySession(s, ops).isRevoked && !s.isRevoked && !ops[0].Revocation? {
        var j :| 0 <= j < |ops[1..]| && ops[1..][j].Revocation?;
        assert ops[j + 1].Revocation?;
      }
      if exists i :: 0 <= i < |ops| && ops[i].Revocation? {
        var i :| 0 <= i < |ops| && ops[i].Revocation?;
        if i > 0 {
          assert ops[1..][i - 1].Revocation?;
        }
      }
    }
  }

  /** The last-use stamp is that of the last use in the sequence. */
  lemma {:induction false} ReplaySessionLastUsed(s: SessionRecord, ops: seq<SessionOp>, i: nat)
    requires i < |ops| && ops[i].Use?
    requires forall j :: i < j < |ops| ==> !ops[j].Use?
    ensures ReplaySession(s, ops).lastUsedAt == ops[i].at
    decreases |ops|
  {
    if i == 0 {
      ReplaySessionWithoutUse(SessionStep(s, ops[0]), ops[1..]);
    } else {
      ReplaySessionLastUsed(SessionStep(s, ops[0]), ops[1..], i - 1);
    }
  }

  /** Without a use the last-use stamp keeps its value. */
  lemma {:induction false} ReplaySessionWithoutUse(s: SessionRecord, ops: seq<SessionOp>)
    requires forall j :: 0 <= j < |ops| ==> !ops[j].Use?
    ensures ReplaySession(s, ops).lastUsedAt == s.lastUsedAt
    decreases |ops|
  {
    if ops != [] {
      ReplaySessionWithoutUse(SessionStep(s, ops[0]), ops[1..]);
    }
  }
}
