/** What each critical section leaves alone, and which effects and answers it can have at all. */
module Frames {
  import opened Types
  import opened Token
  import opened Model
  import opened Runs

  predicate NoSessionEvents(h: seq<Audit>) {
    forall i :: 0 <= i < |h| ==> !h[i].action.SessionEvent?
  }

  /** Sections that check a device proof. */
  predicate Proves(i: Input) {
    i.RegisterDevice? || i.RequestSession? || i.Decide? || i.ChangePermissions? || i.HandControl?
  }

  /** The proof in question. */
  function ProofIn(i: Input): Proof
    requires Proves(i)
  {
    i.proof
  }

  predicate WritesTokens(i: Input) {
    i.Arrive? || i.Register? || i.Login? || i.Rotate? || i.Logout?
  }

  /** The maps of `base` that the section leaves as they are. */
  predicate Leaves(i: Input, st: State, base: State) {
    && (i.Register? || i.Rotate? || i.Logout? || base.accounts == st.accounts)
    && (i.Register? || base.emails == st.emails)
    && (WritesTokens(i) || base.refresh == st.refresh)
    && (i.RegisterDevice? || i.RevokeDevice? || i.Touch? || base.devices == st.devices)
    && base.sessions == st.sessions && base.history == st.history
    && (i.Arrive? || i.NewChallenge? || base.challenges == st.challenges ||
        (Proves(i) && base.challenges == st.challenges - {ProofIn(i).nonce}))
    && (i.Connect? || i.Disconnect? || base.peers == st.peers)
    && (i.Arrive? || base.rates == st.rates)
    && base.iceUrls == st.iceUrls && base.key == st.key
  }

  /** The effects it can have on sessions. */
  predicate Does(i: Input, e: Effect) {
    match e
    case Quiet => true
    case Create(v) => i.RequestSession?
    case EndWhere(_, _, _, _) => i.Arrive? || i.Rotate? || i.Logout? || i.RevokeDevice?
    case EndOne(id, _, _) => (i.Decide? || i.ChangePermissions? || i.StopSession?) && i.id == id
    case Approve(id, _, _, _) => i.Decide? && i.approve && i.id == id
    case Regrant(id, _, _) => i.ChangePermissions? && i.id == id
    case Handover(id, _) => i.HandControl? && i.id == id
  }

  /** The answers that only some sections give. */
  predicate Says(i: Input, r: Response) {
    && (r.Tokens? ==> i.Register? || i.Login? || i.Rotate?)
    && (r.Crashed? ==> i.Rotate? || i.Logout?)
    && (r.Subject? ==> i.VerifyAccess?)
    && (r.Admitted? ==> i.Arrive?)
  }

  predicate Framed(i: Input, st: State, o: Outcome) {
    Leaves(i, st, o.base) && Does(i, o.effect) && Says(i, o.reply) && NoSessionEvents(o.tail)
  }

  lemma RefusalFramed(i: Input, st: State, st': State, code: nat, reason: Reason)
    requires Leaves(i, st, st')
    ensures Framed(i, st, Refuse(st', code, reason))
  {
  }

  lemma IssueLeaves(i: Input, st: State, st': State, user: Id, family: string, raw: string, now: Time)
    requires Leaves(i, st, st') && WritesTokens(i)
    ensures Leaves(i, st, Issue(st', user, family, raw, now))
  {
  }

  lemma InvalidateLeaves(i: Input, st: State, st': State, user: Id)
    requires Leaves(i, st, st') && (i.Rotate? || i.Logout?) && user in st'.accounts
    ensures Leaves(i, st, Invalidate(st', user))
  {
  }

  // ---------- section by section ----------

  lemma ArriveFramed(st: State, host: string, authPath: bool, now: Time, order: seq<Id>, purge: bool)
    ensures Framed(Arrive(host, authPath), st, PlanArrive(st, host, authPath, now, order, purge))
  {
  }

  lemma RegisterFramed(st: State, ok: bool, email: string, name: string, password: string,
                       id: Id, family: string, raw: string, now: Time)
    ensures Framed(Register(ok, email, name, password, id, family, raw), st,
                   PlanRegister(st, ok, email, name, password, id, family, raw, now))
  {
  }

  lemma LoginFramed(st: State, email: string, password: string, family: string, raw: string, now: Time)
    ensures Framed(Login(email, password, family, raw), st, PlanLogin(st, email, password, family, raw, now))
  {
    var i := Login(email, password, family, raw);
    RefusalFramed(i, st, st, 400, InvalidCredentials);
    RefusalFramed(i, st, st, 401, InvalidCredentials);
    var account := AccountFor(st, email, password);
    if account.Some? {
      IssueLeaves(i, st, st, account.value, family, raw, now);
    }
  }

  lemma RotateFramed(st: State, token: string, raw: string, now: Time, order: seq<Id>)
    requires OwnersExist(st)
    ensures Framed(Rotate(token, raw), st, PlanRotate(st, token, raw, now, order))
  {
    var i, d := Rotate(token, raw), Digest(token);
    RefusalFramed(i, st, st, 401, InvalidRefresh);
    if d in st.refresh {
      var t := st.refresh[d];
      InvalidateLeaves(i, st, st.(refresh := UseFamily(st.refresh, t.family)), t.user);
      IssueLeaves(i, st, st.(refresh := st.refresh[d := t.(used := true)]), t.user, t.family, raw, now);
    }
  }

  lemma LogoutFramed(st: State, user: Id, now: Time, order: seq<Id>)
    requires user in st.accounts
    ensures Framed(Logout(user), st, PlanLogout(st, user, now, order))
  {
  }

  lemma VerifyAccessFramed(st: State, access: AccessToken, read: Time)
    ensures Framed(VerifyAccess(access, read), st, PlanVerifyAccess(st, access, read))
  {
  }

  lemma NewChallengeFramed(st: State, user: Id, nonce: string, now: Time)
    ensures Framed(NewChallenge(user, nonce), st, PlanNewChallenge(st, user, nonce, now))
  {
  }

  predicate OnlyDevices(st: State, o: Outcome) {
    && o.base == st.(devices := o.base.devices) && o.effect == Quiet && NoSessionEvents(o.tail)
    && (o.reply.Fail? || o.reply.DeviceOut?)
  }

  lemma ConfirmOnlyDevices(st: State, user: Id, holder: Id, name: string, os: string, kind: string, now: Time)
    requires holder in st.devices
    ensures OnlyDevices(st, Confirm(st, user, holder, name, os, kind, now))
  {
  }

  lemma EnrolOnlyDevices(st: State, user: Id, name: string, key: string, os: string, kind: string, id: Id, now: Time)
    ensures OnlyDevices(st, Enrol(st, user, name, key, os, kind, id, now))
  {
    forall holder | HoldsKey(st.devices, holder, key)
      ensures OnlyDevices(st, Confirm(st, user, holder, name, os, kind, now))
    {
      ConfirmOnlyDevices(st, user, holder, name, os, kind, now);
    }
  }

  lemma RegisterDeviceFramed(st: State, user: Id, p: Proof, name: string, key: string, os: string,
                             kind: string, id: Id, now: Time)
    ensures Framed(RegisterDevice(user, p, name, key, os, kind, id), st,
                   PlanRegisterDevice(st, user, p, name, key, os, kind, id, now))
  {
    EnrolOnlyDevices(Spend(st, p.nonce), user, name, key, os, DefaultKind(kind), id, now);
  }

  lemma RevokeDeviceFramed(st: State, user: Id, id: Id, now: Time, order: seq<Id>)
    ensures Framed(RevokeDevice(user, id), st, PlanRevokeDevice(st, user, id, now, order))
  {
  }

  lemma ProposeFramed(i: Input, st: State, st': State, user: Id, source: Id, target: Id, grant: seq<Permission>,
                      id: Id, now: Time)
    requires Leaves(i, st, st') && i.RequestSession? && source in st'.devices && target in st'.devices
    ensures Framed(i, st, Propose(st', user, source, target, grant, id, now))
  {
  }

  lemma RequestFramed(st: State, user: Id, p: Proof, source: Id, target: Id, grant: seq<Permission>, id: Id, now: Time)
    ensures Framed(RequestSession(user, p, source, target, grant, id), st,
                   PlanRequest(st, user, p, source, target, grant, id, now))
  {
    var i, st' := RequestSession(user, p, source, target, grant, id), Spend(st, p.nonce);
    RefusalFramed(i, st, st, 404, DevicesUnavailable);
    RefusalFramed(i, st, st', 403, SourceProofRequired);
    if Live(st, source, now) && Live(st, target, now) {
      ProposeFramed(i, st, st', user, source, target, grant, id, now);
    }
  }

  lemma GateFramed(i: Input, st: State, user: Id, p: Proof, id: Id, now: Time)
    requires TargetsExist(st) && Proves(i) && ProofIn(i) == p
    ensures var g := TargetGate(st, user, p, id, now);
            Leaves(i, st, g.st) && (g.Stop? ==> Framed(i, st, Refuse(g.st, g.code, g.reason)))
  {
    var g := TargetGate(st, user, p, id, now);
    GateSpends(st, user, p, id, now);
    SpendLeaves(i, st, p);
    if g.Stop? {
      RefusalFramed(i, st, g.st, g.code, g.reason);
    }
  }

  lemma GateSpends(st: State, user: Id, p: Proof, id: Id, now: Time)
    requires TargetsExist(st)
    ensures var g := TargetGate(st, user, p, id, now); g.st == st || g.st == Spend(st, p.nonce)
  {
  }

  lemma SpendLeaves(i: Input, st: State, p: Proof)
    requires Proves(i) && ProofIn(i) == p
    ensures Leaves(i, st, st) && Leaves(i, st, Spend(st, p.nonce))
  {
  }

  lemma DecideOnFramed(i: Input, st: State, st': State, user: Id, id: Id, approve: bool, grant: seq<Permission>,
                       now: Time)
    requires Leaves(i, st, st') && i.Decide? && i.id == id && i.approve == approve && id in st'.sessions
    ensures Framed(i, st, DecideOn(st', user, id, approve, grant, now))
  {
  }

  lemma DecideFramed(st: State, user: Id, p: Proof, id: Id, approve: bool, grant: seq<Permission>, now: Time)
    requires TargetsExist(st)
    ensures Framed(Decide(user, p, id, approve, grant), st, PlanDecide(st, user, p, id, approve, grant, now))
  {
    var i, g := Decide(user, p, id, approve, grant), TargetGate(st, user, p, id, now);
    GateFramed(i, st, user, p, id, now);
    if g.Pass? {
      DecideOnFramed(i, st, g.st, user, id, approve, grant, now);
    }
  }

  lemma ChangeOnFramed(i: Input, st: State, st': State, user: Id, id: Id, grant: seq<Permission>)
    requires Leaves(i, st, st') && i.ChangePermissions? && i.id == id && id in st'.sessions
    ensures Framed(i, st, ChangeOn(st', user, id, grant))
  {
  }

  lemma ChangeFramed(st: State, user: Id, p: Proof, id: Id, grant: seq<Permission>, now: Time)
    requires TargetsExist(st)
    ensures Framed(ChangePermissions(user, p, id, grant), st, PlanChange(st, user, p, id, grant, now))
  {
    var i, g := ChangePermissions(user, p, id, grant), TargetGate(st, user, p, id, now);
    GateFramed(i, st, user, p, id, now);
    if g.Pass? {
      ChangeOnFramed(i, st, g.st, user, id, grant);
    }
  }

  lemma HandoverFramed(st: State, user: Id, p: Proof, id: Id, now: Time)
    requires TargetsExist(st)
    ensures Framed(HandControl(user, p, id), st, PlanHandover(st, user, p, id, now))
  {
    GateFramed(HandControl(user, p, id), st, user, p, id, now);
  }

  lemma StopFramed(st: State, user: Id, id: Id)
    ensures Framed(StopSession(user, id), st, PlanStop(st, user, id))
  {
  }

  lemma ListAuditFramed(st: State, user: Id)
    ensures Framed(ListAudit(user), st, PlanListAudit(st, user))
  {
  }

  lemma IceFramed(st: State, user: Id, id: Id, now: Time)
    ensures Framed(IceConfiguration(user, id), st, PlanIce(st, user, id, now))
  {
  }

  lemma PeersFramed(st: State, id: Id)
    ensures Framed(Connect(id), st, PlanPeers(st, st.peers + {id}))
    ensures Framed(Disconnect(id), st, PlanPeers(st, st.peers - {id}))
  {
  }

  lemma TouchFramed(st: State, id: Id, now: Time)
    ensures Framed(Touch(id), st, PlanTouch(st, id, now))
  {
  }

  lemma AnalyzeFramed(st: State, user: Id, id: Id, now: Time)
    ensures Framed(Analyze(user, id), st, PlanAnalyze(st, user, id, now))
  {
  }

  // ---------- any section ----------

  predicate OfAccounts(i: Input) {
    || i.Arrive? || i.Register? || i.Login? || i.Rotate? || i.Logout? || i.VerifyAccess? || i.NewChallenge?
    || i.RegisterDevice? || i.RevokeDevice?
  }

  lemma AccountsFramed(st: State, e: Event, purge: bool)
    requires Defined(st, e.input) && OfAccounts(e.input)
    ensures Framed(e.input, st, Plan(st, e, purge))
  {
    match e.input
    case Arrive(host, authPath) => ArriveFramed(st, host, authPath, e.now, e.order, purge);
    case Register(ok, email, name, password, id, family, raw) =>
      RegisterFramed(st, ok, email, name, password, id, family, raw, e.now);
    case Login(email, password, family, raw) => LoginFramed(st, email, password, family, raw, e.now);
    case Rotate(token, raw) => RotateFramed(st, token, raw, e.now, e.order);
    case Logout(user) => LogoutFramed(st, user, e.now, e.order);
    case VerifyAccess(access, read) => VerifyAccessFramed(st, access, read);
    case NewChallenge(user, nonce) => NewChallengeFramed(st, user, nonce, e.now);
    case RegisterDevice(user, p, name, key, os, kind, id) =>
      RegisterDeviceFramed(st, user, p, name, key, os, kind, id, e.now);
    case RevokeDevice(user, id) => RevokeDeviceFramed(st, user, id, e.now, e.order);
  }

  lemma SessionsFramed(st: State, e: Event, purge: bool)
    requires Defined(st, e.input) && !OfAccounts(e.input)
    ensures Framed(e.input, st, Plan(st, e, purge))
  {
    match e.input
    case RequestSession(user, p, source, target, grant, id) =>
      RequestFramed(st, user, p, source, target, grant, id, e.now);
    case Decide(user, p, id, approve, grant) => DecideFramed(st, user, p, id, approve, grant, e.now);
    case ChangePermissions(user, p, id, grant) => ChangeFramed(st, user, p, id, grant, e.now);
    case HandControl(user, p, id) => HandoverFramed(st, user, p, id, e.now);
    case StopSession(user, id) => StopFramed(st, user, id);
    case ListAudit(user) => ListAuditFramed(st, user);
    case IceConfiguration(user, id) => IceFramed(st, user, id, e.now);
    case Connect(id) => PeersFramed(st, id);
    case Disconnect(id) => PeersFramed(st, id);
    case Touch(id) => TouchFramed(st, id, e.now);
    case Analyze(user, id) => AnalyzeFramed(st, user, id, e.now);
  }

  /** Every section, over any state, with and without the purge. */
  lemma PlanFramed(st: State, e: Event, purge: bool)
    requires Defined(st, e.input)
    ensures Framed(e.input, st, Plan(st, e, purge))
  {
    if OfAccounts(e.input) {
      AccountsFramed(st, e, purge);
    } else {
      SessionsFramed(st, e, purge);
    }
  }
}
