# Auth-service domain model

A Dafny model of the domain layer of the auth service
(`services/auth-service/internal/domain/user.go`). The layer has two records.
A `User` is created at registration and changed by login, profile update,
deactivation and verification. A `Session` holds a refresh token and is
changed by revocation and use.

- `user.dfy` (module `Domain`) holds the records and the registration, login and profile data types.
  It has a model of the two bcrypt calls and a pure function for each way a record is built or changed.
  It also has the classes `User` and `Session`. Their methods update fields in place, as Go's pointer-receiver methods do.
  Each method's postcondition ties the object's new `Record()` to the matching function of its old `Record()`.
  `NewUser` and `NewSession` are pure functions that build a record. The classes' constructors allocate an object holding one.
- `lifecycle.dfy` (module `Lifecycle`) replays any sequence of those operations on a record.
  It proves which fields remain as created, and which operations decide each flag and timestamp.

The environment comes in as parameters.
- Every `time.Now()` reading is an `Instant`. `NewUser` and `NewSession` each read the clock twice, so they take two readings.
- Every `uuid.New()` is a `Uuid`.
- bcrypt is a `Bcrypt` value with two functions, `generate` and `compare`. The random salt that `generate` uses is a `Salt` parameter.
- bcrypt's one guarantee the service relies on is written as `Sound`: a hash generated from a password passes the comparison for that password.
  Lemmas that need this guarantee take it as a hypothesis.

The repository's design documents describe an order-processing saga.
No source file implements it, so it is not part of this model.

## Model

| member | source | states |
|---|---|---|
| `Domain.NewUser` | services/auth-service/internal/domain/user.go:78-96 | Fails exactly when hashing fails. On success it stores exactly the bcrypt hash of the registration password, made at `DefaultCost`. It copies id, email, names and campus. Role is student: active, unverified, never logged in. Creation and update stamps are the two clock readings. With a sound bcrypt, the registration password checks. |
| `Domain.PasswordMatches` | services/auth-service/internal/domain/user.go:99-103 | With a sound bcrypt, a password that the stored hash was generated from is accepted |
| `Domain.User.CheckPassword` | services/auth-service/internal/domain/user.go:100-103 | The same acceptance, read from the object's fields |
| `Domain.WithLastLogin` | services/auth-service/internal/domain/user.go:106-110 | Last login and update stamp are both the same instant `now`; no other field changes |
| `Domain.User.UpdateLastLogin` | services/auth-service/internal/domain/user.go:106-110 | The object's new record is `WithLastLogin` of its old one |
| `Domain.WithProfile` | services/auth-service/internal/domain/user.go:113-124 | A non-empty first or last name replaces the stored one; an empty one keeps it. A present campus replaces the stored one; an absent one keeps it. The update stamp is `now`; nothing else changes. |
| `Domain.User.UpdateProfile` | services/auth-service/internal/domain/user.go:113-124 | The object's new record is `WithProfile` of its old one |
| `Domain.ProfileIdempotent` | services/auth-service/internal/domain/user.go:113-124 | Applying the same profile again only moves the update stamp; at one clock reading, twice equals once |
| `Domain.WithDeactivation` | services/auth-service/internal/domain/user.go:127-130 | The user is inactive with update stamp `now`; nothing else changes |
| `Domain.User.Deactivate` | services/auth-service/internal/domain/user.go:127-130 | The object's new record is `WithDeactivation` of its old one |
| `Domain.DeactivationIdempotent` | services/auth-service/internal/domain/user.go:127-130 | Deactivating again only moves the update stamp |
| `Domain.WithVerification` | services/auth-service/internal/domain/user.go:133-136 | The user is verified with update stamp `now`; nothing else changes |
| `Domain.User.Verify` | services/auth-service/internal/domain/user.go:133-136 | The object's new record is `WithVerification` of its old one |
| `Domain.VerificationIdempotent` | services/auth-service/internal/domain/user.go:133-136 | Verifying again only moves the update stamp |
| `Domain.User.constructor` | services/auth-service/internal/domain/user.go:84-96 | The allocated object holds exactly the given record |
| `Domain.NewSession` | services/auth-service/internal/domain/user.go:139-151 | Stores the given id, user id, refresh token, IP address, user agent and expiry. Creation and last-use stamps are the two clock readings. The session starts not revoked. |
| `Domain.Session.constructor` | services/auth-service/internal/domain/user.go:140-150 | The allocated object holds exactly the given record |
| `Domain.Expired` | services/auth-service/internal/domain/user.go:154-156 | A session record is live at every instant up to and including its expiry, and expired at every instant strictly after it |
| `Domain.Session.IsExpired` | services/auth-service/internal/domain/user.go:154-156 | True exactly when `now` is strictly after the object's expiry; it is `Expired` of the object's record, so the expiry lemmas apply to it |
| `Domain.ExpiryBoundary` | services/auth-service/internal/domain/user.go:154-156 | A session is not expired at exactly its expiry instant |
| `Domain.ExpiryMonotone` | services/auth-service/internal/domain/user.go:154-156 | A session expired at one instant is expired at every later one |
| `Domain.WithRevocation` | services/auth-service/internal/domain/user.go:159-161 | The session is revoked; nothing else changes |
| `Domain.Session.Revoke` | services/auth-service/internal/domain/user.go:159-161 | The object's new record is `WithRevocation` of its old one |
| `Domain.RevocationIdempotent` | services/auth-service/internal/domain/user.go:159-161 | Revoking twice equals revoking once |
| `Domain.WithLastUsed` | services/auth-service/internal/domain/user.go:164-166 | The last-use stamp is `now`; nothing else changes |
| `Domain.Session.UpdateLastUsed` | services/auth-service/internal/domain/user.go:164-166 | The object's new record is `WithLastUsed` of its old one |
| `Lifecycle.ReplayKeepsAccount` | services/auth-service/internal/domain/user.go:105-136 | After any sequence of user operations, id, email, password hash, role and creation stamp are unchanged |
| `Lifecycle.ReplayActive` | services/auth-service/internal/domain/user.go:126-130 | A user ends active exactly when it started active and no deactivation occurred (both directions) |
| `Lifecycle.ReplayVerified` | services/auth-service/internal/domain/user.go:132-136 | A user ends verified exactly when it started verified or some verification occurred (both directions) |
| `Lifecycle.ReplayUpdatedAt` | services/auth-service/internal/domain/user.go:105-136 | After a non-empty sequence, the update stamp is the last operation's clock reading |
| `Lifecycle.ReplayLastLogin` | services/auth-service/internal/domain/user.go:105-110 | The last-login stamp is the clock reading of the last login in the sequence |
| `Lifecycle.ReplayWithoutLogin` | services/auth-service/internal/domain/user.go:105-136 | A sequence with no login leaves the last-login stamp as it was, unset included |
| `Lifecycle.ReplayWithoutProfileUpdate` | services/auth-service/internal/domain/user.go:112-124 | A sequence with no profile update leaves names and campus as they were |
| `Lifecycle.RegisteredUserLifetime` | services/auth-service/internal/domain/user.go:77-136 | A registered user keeps its id, email, student role and creation stamp under any operations. With a sound bcrypt, its registration password keeps checking. |
| `Lifecycle.ReplaySessionKeeps` | services/auth-service/internal/domain/user.go:153-166 | After any session operations, owner, token, client data, creation and expiry are unchanged. So the session is expired at an instant exactly when it was before. |
| `Lifecycle.ReplaySessionRevoked` | services/auth-service/internal/domain/user.go:158-161 | A session ends revoked exactly when it started revoked or some revocation occurred (both directions) |
| `Lifecycle.ReplaySessionLastUsed` | services/auth-service/internal/domain/user.go:163-166 | The last-use stamp is the clock reading of the last use in the sequence |
| `Lifecycle.ReplaySessionWithoutUse` | services/auth-service/internal/domain/user.go:158-166 | A sequence with no use leaves the last-use stamp as it was |

## Left out

- bcrypt internals (`GenerateFromPassword`, `CompareHashAndPassword`): a foreign library. They are modelled as the two functions of a `Bcrypt` value. The library's error kinds collapse into the single `HashFailed`.
- Domain.NewUser: does not state that the stored hash differs from the plaintext password. That is a property of bcrypt's output format, which is not modelled.
- `time.Now()`: the clock readings are parameters. `time.Time` becomes an integer instant on one timeline, with no monotonic reading or location.
- `uuid.New()`: identifiers are parameters.
- Go strings are byte strings. Here they are `seq<char>`, with no encoding.
- Pointer aliasing: the `*string` campus and the `*time.Time` last-login stamp are modelled as `Option` values. `UpdateProfile` makes the user share the profile's campus pointer; the model does not capture this.
- The `validate:"..."` struct tags on `UserRegistration`, `UserLogin` and `UserProfile`: an external validator enforces them, and the domain code does not check them.
- `UserLogin` and `TokenPair` have no operations in the domain layer. They are data types only.
- The `UserRepository` and `SessionRepository` interfaces: persistence contracts with no implementation in this layer.
- `services/auth-service/cmd/server/main.go`: server, routing, tracing and shutdown wiring (I/O, goroutines, signals).
- The AI service (`services/ai-service/app/main.py` and its `moderation`, `recommendations` and `search` endpoints): HTTP wrappers over machine-learning services and databases, with floating-point scores.
