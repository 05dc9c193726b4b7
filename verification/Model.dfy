/** The state of the service and what each critical section does to it, as values. A handler is
    planned (which session change it makes, what it logs, what it answers) and then committed. */
module Model {
  import opened Wrappers
  import opened Types
  import opened Permissions
  import opened AuditLog
  import opened Token

  datatype State = State(
    accounts: map<Id, AccountRec>,
    emails: map<string, Id>,
    refresh: map<Digest, RefreshRec>,
    devices: map<Id, DeviceRec>,
    sessions: map<Id, SessionRec>,
    challenges: map<string, Challenge>,
    peers: set<Id>,
    rates: map<string, Rate>,
    iceUrls: seq<string>,
    key: string,
    history: seq<Audit>)

  function Empty(key: string, iceUrls: seq<string>): State {
    State(map[], map[], map[], map[], map[], map[], {}, map[], iceUrls, key, [])
  }

  // ---------- answers ----------

  datatype Reason =
    | TooManyRequests | BadRegistration | AccountTaken | InvalidCredentials | InvalidRefresh | ReusedRefresh
    | BadDevice | DeviceProofRequired | IdentityTaken | IdentityRevoked | DeviceLimit | DeviceNotFound
    | DevicesUnavailable | SourceProofRequired | InvalidPermissions | DuplicateSession | SessionLimit
    | SessionNotFound | TargetProofRequired | NotPending | NotSubset | ControllerPresent | NotActive
    | NoControlRequested | ApprovedSessionRequired | NoRelay | InvalidAccess

  /** The credential of security.TURNCredential: its user name carries whole seconds. */
  datatype Credential = Credential(user: Id, seconds: int)
  datatype IceEntry = IceEntry(url: string, credential: Option<Credential>)

  datatype Response =
    | Fail(code: nat, reason: Reason)
    | Admitted
    | Tokens(code: nat, access: AccessToken, refresh: string)
    | NonceOut(nonce: string)
    | DeviceOut(code: nat, device: DeviceRec)
    | SessionOut(code: nat, session: SessionRec)
    | AuditOut(page: seq<Audit>)
    | IceOut(entries: seq<IceEntry>, expires: Time)
    | Subject(user: Id)
    | Done
    /** The handler panicked: its deferred unlock ran and the HTTP server dropped the connection. */
    | Crashed

  // ---------- changes to sessions ----------

  datatype Which = Overdue(at: Time) | VisibleTo(user: Id) | OnDevice(device: Id)

  predicate Visible(devices: map<Id, DeviceRec>, v: SessionRec, user: Id) {
    v.operator == user || (v.target in devices && devices[v.target].owner == user)
  }

  predicate Hit(devices: map<Id, DeviceRec>, which: Which, v: SessionRec) {
    Open(v) &&
    match which
    case Overdue(at) => at >= v.expires
    case VisibleTo(user) => Visible(devices, v, user)
    case OnDevice(device) => v.source == device || v.target == device
  }

  /** An order in which a loop over a map may meet its keys. */
  ghost predicate IsOrder(order: seq<Id>, keys: set<Id>) {
    NoDuplicates(order) && forall k :: k in order <==> k in keys
  }

  datatype Effect =
    | Quiet
    | Create(session: SessionRec)
    | EndWhere(which: Which, final: SessionState, actor: Id, order: seq<Id>)
    | EndOne(id: Id, final: SessionState, actor: Id)
    | Approve(id: Id, grant: seq<Permission>, until: Time, actor: Id)
    | Regrant(id: Id, grant: seq<Permission>, actor: Id)
    | Handover(id: Id, actor: Id)

  function Finish(v: SessionRec, final: SessionState): SessionRec {
    v.(state := final, granted := [], epoch := v.epoch + 1)
  }

  function Activate(v: SessionRec, grant: seq<Permission>, until: Time): SessionRec {
    v.(state := Active, granted := grant, expires := until, epoch := v.epoch + 1)
  }

  function Grant(v: SessionRec, grant: seq<Permission>): SessionRec {
    v.(granted := grant, epoch := v.epoch + 1)
  }

  /** What a handover to another session of the same target leaves of v. */
  function Yield(v: SessionRec): SessionRec {
    v.(granted := WithoutControl(v.granted), epoch := v.epoch + 1)
  }

  function TakeOver(v: SessionRec): SessionRec {
    v.(granted := WithControl(v.granted, v.requested), epoch := v.epoch + 1)
  }

  predicate YieldsTo(sessions: map<Id, SessionRec>, other: Id, id: Id) {
    && other in sessions && id in sessions && other != id
    && sessions[other].target == sessions[id].target && sessions[other].state == Active
  }

  function ApplyEffect(devices: map<Id, DeviceRec>, sessions: map<Id, SessionRec>,
                       e: Effect): (after: map<Id, SessionRec>)
    ensures forall id :: id in sessions ==> id in after
  {
    match e
    case Quiet => sessions
    case Create(v) => sessions[v.id := v]
    case EndWhere(which, final, _, _) =>
      map id | id in sessions ::
        if Hit(devices, which, sessions[id]) then Finish(sessions[id], final) else sessions[id]
    case EndOne(id, final, _) =>
      if id in sessions then sessions[id := Finish(sessions[id], final)] else sessions
    case Approve(id, grant, until, _) =>
      if id in sessions then sessions[id := Activate(sessions[id], grant, until)] else sessions
    case Regrant(id, grant, _) =>
      if id in sessions then sessions[id := Grant(sessions[id], grant)] else sessions
    case Handover(id, _) =>
      map other | other in sessions ::
        if other == id then TakeOver(sessions[other])
        else if YieldsTo(sessions, other, id) then Yield(sessions[other]) else sessions[other]
  }

  /** The end events in the order in which the loop over the session map meets the sessions. */
  function EndEvents(devices: map<Id, DeviceRec>, sessions: map<Id, SessionRec>,
                     which: Which, final: SessionState, actor: Id, order: seq<Id>, now: Time): seq<Audit> {
    if order == [] then []
    else
      var id := order[|order| - 1];
      EndEvents(devices, sessions, which, final, actor, order[..|order| - 1], now) +
      if id in sessions && Hit(devices, which, sessions[id])
      then [Audit(actor, SessionEvent(Ended(final)), id, now)] else []
  }

  function Events(devices: map<Id, DeviceRec>, sessions: map<Id, SessionRec>, e: Effect, now: Time): seq<Audit> {
    match e
    case Quiet => []
    case Create(v) => [Audit(v.operator, SessionEvent(Requested), v.id, now)]
    case EndWhere(which, final, actor, order) => EndEvents(devices, sessions, which, final, actor, order, now)
    case EndOne(id, final, actor) => [Audit(actor, SessionEvent(Ended(final)), id, now)]
    case Approve(id, _, _, actor) => [Audit(actor, SessionEvent(Approved), id, now)]
    case Regrant(id, _, actor) => [Audit(actor, SessionEvent(PermissionsChanged), id, now)]
    case Handover(id, actor) => [Audit(actor, SessionEvent(ControlHandover), id, now)]
  }

  /** What a critical section decides: the other maps already changed, one session effect, and
      the audit events written after those of the effect. */
  datatype Outcome = Outcome(base: State, effect: Effect, tail: seq<Audit>, reply: Response)

  function Commit(o: Outcome, now: Time): State {
    o.base.(
      sessions := ApplyEffect(o.base.devices, o.base.sessions, o.effect),
      history := o.base.history + Events(o.base.devices, o.base.sessions, o.effect, now) + o.tail)
  }

  function Refuse(st: State, code: nat, reason: Reason): Outcome {
    Outcome(st, Quiet, [], Fail(code, reason))
  }

  // ---------- the prologue: expiry, purge, rate limit ----------

  function Purge(st: State, now: Time): State {
    st.(
      challenges := map k | k in st.challenges && now < st.challenges[k].expires :: st.challenges[k],
      rates := map k | k in st.rates && now < st.rates[k].until :: st.rates[k],
      refresh := map k | k in st.refresh && now < st.refresh[k].expires :: st.refresh[k])
  }

  function RateKey(host: string, authPath: bool): string {
    if authPath then host + "/auth" else host
  }

  function RateLimit(authPath: bool): nat {
    if authPath then 15 else 300
  }

  /** The entry after one more request: the window's own while it lasts, else a new window. */
  function Charge(rates: map<string, Rate>, key: string, now: Time): Rate {
    var v := if key in rates then rates[key] else Rate(0, ZERO_TIME);
    if now < v.until then v.(count := v.count + 1) else Rate(1, now + MINUTE)
  }

  function PlanArrive(st: State, host: string, authPath: bool, now: Time, order: seq<Id>, purge: bool): Outcome {
    var base := if purge then Purge(st, now) else st;
    var key := RateKey(host, authPath);
    var v := Charge(base.rates, key, now);
    Outcome(
      base.(rates := base.rates[key := v]),
      EndWhere(Overdue(now), Expired, SYSTEM, order),
      [],
      if v.count > RateLimit(authPath) then Fail(429, TooManyRequests) else Admitted)
  }

  // ---------- accounts and tokens ----------

  function Issue(st: State, user: Id, family: string, raw: string, now: Time): State {
    st.(refresh := st.refresh[Digest(raw) := RefreshRec(user, family, now + REFRESH_LIFETIME, false)])
  }

  function IssuedTokens(st: State, code: nat, user: Id, raw: string, now: Time): Response
    requires user in st.accounts
  {
    Tokens(code, Sign(st.key, user, st.accounts[user].version, now), raw)
  }

  predicate ValidRegistration(addressOk: bool, name: string, password: string) {
    addressOk && 1 <= |name| <= 80 && 12 <= |password| <= 256
  }

  function PlanRegister(st: State, addressOk: bool, email: string, name: string, password: string,
                        id: Id, family: string, raw: string, now: Time): Outcome {
    if !ValidRegistration(addressOk, name, password) then Refuse(st, 400, BadRegistration)
    else if email in st.emails && st.emails[email] != "" then Refuse(st, 409, AccountTaken)
    else
      var base := st.(
        accounts := st.accounts[id := AccountRec(id, email, name, PasswordHash(password), 0)],
        emails := st.emails[email := id]);
      Outcome(Issue(base, id, family, raw, now), Quiet, [Audit(id, AccountRegistered, id, now)],
              IssuedTokens(base, 201, id, raw, now))
  }

  /** The account a login names, if its password is the one given. */
  function AccountFor(st: State, email: string, password: string): Option<Id> {
    var id := if email in st.emails then st.emails[email] else "";
    if id in st.accounts && st.accounts[id].password == PasswordHash(password) then Some(id) else None
  }

  function PlanLogin(st: State, email: string, password: string, family: string, raw: string, now: Time): Outcome {
    if |password| > 256 then Refuse(st, 400, InvalidCredentials)
    else
      var account := AccountFor(st, email, password);
      if account.None? then Refuse(st, 401, InvalidCredentials)
      else
        Outcome(Issue(st, account.value, family, raw, now), Quiet,
                [Audit(account.value, AccountLogin, account.value, now)],
                IssuedTokens(st, 200, account.value, raw, now))
  }

  function UseFamily(refresh: map<Digest, RefreshRec>, family: string): map<Digest, RefreshRec> {
    map d | d in refresh :: if refresh[d].family == family then refresh[d].(used := true) else refresh[d]
  }

  function UseAllOf(refresh: map<Digest, RefreshRec>, user: Id): map<Digest, RefreshRec> {
    map d | d in refresh :: if refresh[d].user == user then refresh[d].(used := true) else refresh[d]
  }

  /** `invalidate` outside the session map: the version moves on and every token counts as used. */
  function Invalidate(st: State, user: Id): State
    requires user in st.accounts
  {
    st.(
      accounts := st.accounts[user := st.accounts[user].(version := st.accounts[user].version + 1)],
      refresh := UseAllOf(st.refresh, user))
  }

  /** No refresh token belongs to an account that is not there; `invalidate` relies on it. */
  predicate OwnersExist(st: State) {
    forall d :: d in st.refresh ==> st.refresh[d].user in st.accounts
  }

  /** Every connected peer is a registered device; the last loop of `invalidate` relies on it. */
  predicate PeersKnown(st: State) {
    forall p :: p in st.peers ==> p in st.devices
  }

  /** A section whose last steps are those of `invalidate` and one event: the sessions end, and then
      the loop over the peers panics at one that is not a device, before the event is recorded. */
  function AfterInvalidate(st: State, user: Id, order: seq<Id>, e: Audit, reply: Response): Outcome {
    Outcome(st, EndWhere(VisibleTo(user), Closed, user, order),
            if PeersKnown(st) then [e] else [],
            if PeersKnown(st) then reply else Crashed)
  }

  function PlanRotate(st: State, token: string, raw: string, now: Time, order: seq<Id>): Outcome
    requires OwnersExist(st)
  {
    var d := Digest(token);
    if d !in st.refresh || now >= st.refresh[d].expires then Refuse(st, 401, InvalidRefresh)
    else
      var t := st.refresh[d];
      if t.used then
        AfterInvalidate(Invalidate(st.(refresh := UseFamily(st.refresh, t.family)), t.user), t.user, order,
                        Audit(t.user, RefreshReuse, t.family, now), Fail(401, ReusedRefresh))
      else
        var base := st.(refresh := st.refresh[d := t.(used := true)]);
        Outcome(Issue(base, t.user, t.family, raw, now), Quiet, [], IssuedTokens(base, 200, t.user, raw, now))
  }

  function PlanLogout(st: State, user: Id, now: Time, order: seq<Id>): Outcome
    requires user in st.accounts
  {
    AfterInvalidate(Invalidate(st, user), user, order, Audit(user, AccountLogout, user, now), Done)
  }

  function PlanVerifyAccess(st: State, token: AccessToken, now: Time): Outcome {
    var c := Verify(st.key, token, now);
    if c.None? || c.value.subject !in st.accounts || st.accounts[c.value.subject].version != c.value.version
    then Refuse(st, 401, InvalidAccess)
    else Outcome(st, Quiet, [], Subject(c.value.subject))
  }

  // ---------- device proofs ----------

  function PlanNewChallenge(st: State, user: Id, nonce: string, now: Time): Outcome {
    Outcome(st.(challenges := st.challenges[nonce := Challenge(user, now + CHALLENGE_LIFETIME)]),
            Quiet, [], NonceOut(nonce))
  }

  /** The parts of a request a device proof is checked against. */
  datatype Proof = Proof(method_: string, path: string, nonce: string, signature: Signature)

  predicate ProofOk(st: State, user: Id, key: string, p: Proof, now: Time) {
    && p.nonce in st.challenges
    && st.challenges[p.nonce].user == user
    && now < st.challenges[p.nonce].expires
    && VerifyDevice(key, p.signature, p.method_, p.path, p.nonce)
  }

  /** Checking a proof uses the nonce up, whatever the verdict. */
  function Spend(st: State, nonce: string): State {
    st.(challenges := st.challenges - {nonce})
  }

  // ---------- devices ----------

  predicate Live(st: State, id: Id, now: Time) {
    && id in st.devices
    && !st.devices[id].revoked
    && id in st.peers
    && now - st.devices[id].lastSeen < LIVENESS
  }

  predicate UniqueKeys(devices: map<Id, DeviceRec>) {
    forall a, b :: a in devices && b in devices && devices[a].key == devices[b].key ==> a == b
  }

  function ActiveDevices(devices: map<Id, DeviceRec>, owner: Id): set<Id> {
    set id | id in devices && devices[id].owner == owner && !devices[id].revoked
  }

  predicate HoldsKey(devices: map<Id, DeviceRec>, id: Id, key: string) {
    id in devices && devices[id].key == key
  }

  function DefaultKind(kind: string): string {
    if kind == "" then "pc" else kind
  }

  predicate ValidDevice(name: string, os: string, kind: string) {
    && 1 <= |name| <= 80
    && ((kind == "pc" && (os == "Windows 10" || os == "Windows 11")) || (kind == "android" && os != ""))
  }

  ghost function PlanRegisterDevice(st: State, user: Id, p: Proof, name: string, key: string, os: string,
                                    kind: string, id: Id, now: Time): Outcome
  {
    if !ValidDevice(name, os, DefaultKind(kind)) then Refuse(st, 400, BadDevice)
    else if !ProofOk(st, user, key, p, now) then Refuse(Spend(st, p.nonce), 403, DeviceProofRequired)
    else Enrol(Spend(st, p.nonce), user, name, key, os, DefaultKind(kind), id, now)
  }

  ghost function Enrol(st: State, user: Id, name: string, key: string, os: string, kind: string, id: Id,
                       now: Time): Outcome {
    if exists holder :: HoldsKey(st.devices, holder, key) then
      var holder :| HoldsKey(st.devices, holder, key);
      Confirm(st, user, holder, name, os, kind, now)
    else if |ActiveDevices(st.devices, user)| >= MAX_DEVICES then Refuse(st, 409, DeviceLimit)
    else
      var d := DeviceRec(id, user, key, name, os, kind, ZERO_TIME, false);
      Outcome(st.(devices := st.devices[id := d]), Quiet, [Audit(user, DeviceRegistered, id, now)], DeviceOut(201, d))
  }

  function Confirm(st: State, user: Id, holder: Id, name: string, os: string, kind: string, now: Time): Outcome
    requires holder in st.devices
  {
    var d := st.devices[holder];
    if d.owner != user then Refuse(st, 409, IdentityTaken)
    else if d.revoked then Refuse(st, 403, IdentityRevoked)
    else
      var d' := d.(name := name, os := os, kind := kind);
      Outcome(st.(devices := st.devices[holder := d']), Quiet,
              [Audit(user, DeviceConfirmed, holder, now)], DeviceOut(200, d'))
  }

  function PlanRevokeDevice(st: State, user: Id, id: Id, now: Time, order: seq<Id>): Outcome {
    if id !in st.devices || st.devices[id].owner != user then Refuse(st, 404, DeviceNotFound)
    else
      Outcome(st.(devices := st.devices[id := st.devices[id].(revoked := true)]),
              EndWhere(OnDevice(id), Revoked, user, order),
              [Audit(user, DeviceRevoked, id, now)], Done)
  }

  // ---------- sessions ----------

  function OpenOf(sessions: map<Id, SessionRec>, operator: Id): set<Id> {
    set id | id in sessions && sessions[id].operator == operator && Open(sessions[id])
  }

  predicate HasOpenTo(sessions: map<Id, SessionRec>, operator: Id, target: Id) {
    exists id :: id in OpenOf(sessions, operator) && sessions[id].target == target
  }

  function PlanRequest(st: State, user: Id, p: Proof, source: Id, target: Id, grant: seq<Permission>,
                       id: Id, now: Time): Outcome {
    if !Live(st, source, now) || st.devices[source].owner != user || !Live(st, target, now) || source == target
    then Refuse(st, 404, DevicesUnavailable)
    else if !ProofOk(st, user, st.devices[source].key, p, now)
    then Refuse(Spend(st, p.nonce), 403, SourceProofRequired)
    else Propose(Spend(st, p.nonce), user, source, target, grant, id, now)
  }

  function Propose(st: State, user: Id, source: Id, target: Id, grant: seq<Permission>, id: Id, now: Time): Outcome
    requires source in st.devices && target in st.devices
  {
    if !ValidGrant(grant) then Refuse(st, 400, InvalidPermissions)
    else if HasOpenTo(st.sessions, user, target) then Refuse(st, 409, DuplicateSession)
    else if |OpenOf(st.sessions, user)| >= MAX_OPEN_SESSIONS then Refuse(st, 409, SessionLimit)
    else
      var v := SessionRec(id, user, source, target, Pending, grant, [], now, now + REQUEST_LIFETIME, 1,
                          st.devices[source].key, st.devices[target].key);
      Outcome(st, Create(v), [], SessionOut(201, v))
  }

  /** No session's target is unknown; `targetSession` relies on it. */
  predicate TargetsExist(st: State) {
    forall id :: id in st.sessions ==> st.sessions[id].target in st.devices
  }

  /** `targetSession`: the session, for the owner of its target with an online proof of it. */
  datatype Gate = Pass(st: State) | Stop(st: State, code: nat, reason: Reason)

  function TargetGate(st: State, user: Id, p: Proof, id: Id, now: Time): (g: Gate)
    requires TargetsExist(st)
    ensures g.Pass? ==> id in st.sessions && g.st == Spend(st, p.nonce)
  {
    if id !in st.sessions || st.devices[st.sessions[id].target].owner != user
    then Stop(st, 404, SessionNotFound)
    else
      var target := st.sessions[id].target;
      if !Live(st, target, now) then Stop(st, 403, TargetProofRequired)
      else if !ProofOk(st, user, st.devices[target].key, p, now)
      then Stop(Spend(st, p.nonce), 403, TargetProofRequired)
      else Pass(Spend(st, p.nonce))
  }

  predicate ControllerBusy(sessions: map<Id, SessionRec>, id: Id) {
    exists other :: other in sessions && YieldsTo(sessions, other, id) && Controls(sessions[other].granted)
  }

  /** An outcome whose answer is the session as the effect leaves it. */
  function Answer(st: State, e: Effect, id: Id): Outcome
    requires id in st.sessions
  {
    var after := ApplyEffect(st.devices, st.sessions, e);
    Outcome(st, e, [], SessionOut(200, after[id]))
  }

  function PlanDecide(st: State, user: Id, p: Proof, id: Id, approve: bool, grant: seq<Permission>, now: Time): Outcome
    requires TargetsExist(st)
  {
    match TargetGate(st, user, p, id, now)
    case Stop(st', code, reason) => Refuse(st', code, reason)
    case Pass(st') => DecideOn(st', user, id, approve, grant, now)
  }

  function DecideOn(st: State, user: Id, id: Id, approve: bool, grant: seq<Permission>, now: Time): Outcome
    requires id in st.sessions
  {
    if st.sessions[id].state != Pending then Refuse(st, 409, NotPending)
    else if !approve then Answer(st, EndOne(id, Rejected, user), id)
    else if !ValidGrant(grant) || !Within(grant, st.sessions[id].requested) then Refuse(st, 400, NotSubset)
    else if Controls(grant) && ControllerBusy(st.sessions, id) then Refuse(st, 409, ControllerPresent)
    else Answer(st, Approve(id, grant, now + SESSION_LIFETIME, user), id)
  }

  function PlanChange(st: State, user: Id, p: Proof, id: Id, grant: seq<Permission>, now: Time): Outcome
    requires TargetsExist(st)
  {
    match TargetGate(st, user, p, id, now)
    case Stop(st', code, reason) => Refuse(st', code, reason)
    case Pass(st') => ChangeOn(st', user, id, grant)
  }

  function ChangeOn(st: State, user: Id, id: Id, grant: seq<Permission>): Outcome
    requires id in st.sessions
  {
    if st.sessions[id].state != Active then Refuse(st, 409, NotActive)
    else if grant == [] then Answer(st, EndOne(id, Revoked, user), id)
    else if !ValidGrant(grant) || !Within(grant, st.sessions[id].requested) then Refuse(st, 400, InvalidPermissions)
    else if Controls(grant) && ControllerBusy(st.sessions, id) then Refuse(st, 409, ControllerPresent)
    else Answer(st, Regrant(id, grant, user), id)
  }

  function PlanHandover(st: State, user: Id, p: Proof, id: Id, now: Time): Outcome
    requires TargetsExist(st)
  {
    match TargetGate(st, user, p, id, now)
    case Stop(st', code, reason) => Refuse(st', code, reason)
    case Pass(st') => HandoverTo(st', user, id)
  }

  function HandoverTo(st: State, user: Id, id: Id): Outcome
    requires id in st.sessions
  {
    if st.sessions[id].state != Active || !Controls(st.sessions[id].requested)
    then Refuse(st, 409, NoControlRequested)
    else Answer(st, Handover(id, user), id)
  }

  function PlanStop(st: State, user: Id, id: Id): Outcome {
    if id !in st.sessions || !Visible(st.devices, st.sessions[id], user) then Refuse(st, 404, SessionNotFound)
    else if Open(st.sessions[id]) then Answer(st, EndOne(id, Closed, user), id)
    else Answer(st, Quiet, id)
  }

  // ---------- reading ----------

  predicate Concerns(devices: map<Id, DeviceRec>, sessions: map<Id, SessionRec>, user: Id, e: Audit) {
    || e.actor == user
    || (e.resource in devices && devices[e.resource].owner == user)
    || (e.resource in sessions && Visible(devices, sessions[e.resource], user))
  }

  function Wanted(devices: map<Id, DeviceRec>, sessions: map<Id, SessionRec>, user: Id): Audit -> bool {
    e => Concerns(devices, sessions, user, e)
  }

  function AuditPage(devices: map<Id, DeviceRec>, sessions: map<Id, SessionRec>, history: seq<Audit>,
                     user: Id): seq<Audit> {
    Newest(Last(history, AUDIT_CAPACITY), Wanted(devices, sessions, user), AUDIT_PAGE)
  }

  function PlanListAudit(st: State, user: Id): Outcome {
    Outcome(st, Quiet, [], AuditOut(AuditPage(st.devices, st.sessions, st.history, user)))
  }

  predicate IsRelay(url: string) {
    "turn:" <= url || "turns:" <= url
  }

  function IceEntries(urls: seq<string>, c: Credential): (entries: seq<IceEntry>)
    ensures |entries| == |urls|
    ensures forall i :: 0 <= i < |urls| ==>
              entries[i] == IceEntry(urls[i], if IsRelay(urls[i]) then Some(c) else None)
  {
    seq(|urls|, i requires 0 <= i < |urls| => IceEntry(urls[i], if IsRelay(urls[i]) then Some(c) else None))
  }

  function RelayDeadline(v: SessionRec, now: Time): Time {
    if v.expires < now + RELAY_LIFETIME then v.expires else now + RELAY_LIFETIME
  }

  function PlanIce(st: State, user: Id, id: Id, now: Time): Outcome {
    if id !in st.sessions || !Visible(st.devices, st.sessions[id], user) then Refuse(st, 404, SessionNotFound)
    else
      var v := st.sessions[id];
      if v.state != Active || now >= v.expires then Refuse(st, 403, ApprovedSessionRequired)
      else if st.iceUrls == [] then Refuse(st, 503, NoRelay)
      else
        var until := RelayDeadline(v, now);
        Outcome(st, Quiet, [], IceOut(IceEntries(st.iceUrls, Credential(user, Unix(until))), until))
  }
}
