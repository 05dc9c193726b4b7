/** The records of server/internal/platform/service.go and auth.go, as values. */
module Types {
  type Id = string

  /** Nanoseconds since the Unix epoch. */
  type Time = int

  const SECOND: Time := 1_000_000_000
  const MINUTE: Time := 60 * SECOND
  const HOUR: Time := 60 * MINUTE
  const DAY: Time := 24 * HOUR

  /** Go's zero time.Time, the first instant of year 1. */
  const ZERO_TIME: Time := -62_135_596_800 * SECOND

  const REQUEST_LIFETIME := 2 * MINUTE
  const SESSION_LIFETIME := 8 * HOUR
  const CHALLENGE_LIFETIME := MINUTE
  const REFRESH_LIFETIME := 7 * DAY
  const RELAY_LIFETIME := 10 * MINUTE
  const LIVENESS := 45 * SECOND
  const MAX_OPEN_SESSIONS := 10
  const MAX_DEVICES := 100
  const AUDIT_CAPACITY := 10_000
  const AUDIT_PAGE := 200
  const SYSTEM: Id := "system"

  /** The thirteen known permission strings, and every other string a client may send. */
  datatype Permission =
    | View | Mouse | Keyboard | Files | Clipboard | Audio | Microphone | SystemInfo
    | RestartApp | RestartComputer | Record | AiAnalysis | Workflows
    | Unknown(name: string)

  datatype SessionState = Pending | Active | Rejected | Closed | Expired | Revoked

  /** Session audit actions: `end` writes "session." followed by the state it sets. */
  datatype SessionKind =
    | Requested | Approved | PermissionsChanged | ControlHandover | Ended(state: SessionState)

  datatype Action =
    | SessionEvent(kind: SessionKind)
    | AiAnalyzed
    | AccountRegistered | AccountLogin | AccountLogout | RefreshReuse
    | DeviceRegistered | DeviceConfirmed | DeviceRevoked

  datatype Audit = Audit(actor: Id, action: Action, resource: Id, at: Time)

  datatype SessionRec = SessionRec(
    id: Id, operator: Id, source: Id, target: Id, state: SessionState,
    requested: seq<Permission>, granted: seq<Permission>,
    created: Time, expires: Time, epoch: nat, sourceKey: string, targetKey: string)

  datatype DeviceRec = DeviceRec(
    id: Id, owner: Id, key: string, name: string, os: string, kind: string,
    lastSeen: Time, revoked: bool)

  datatype AccountRec = AccountRec(id: Id, email: string, name: string, password: PasswordHash, version: nat)

  /** A salted Argon2 hash, taken to match exactly the password it was made from. */
  datatype PasswordHash = PasswordHash(of: string)

  /** SHA-256 of a refresh token, taken to be injective. */
  datatype Digest = Digest(of: string)

  datatype RefreshRec = RefreshRec(user: Id, family: string, expires: Time, used: bool)
  datatype Challenge = Challenge(user: Id, expires: Time)
  datatype Rate = Rate(count: nat, until: Time)

  predicate Open(v: SessionRec) {
    v.state == Pending || v.state == Active
  }
}
