/** What any critical section can do to sessions and devices, whichever it is. */
module Plans {
  import opened Wrappers
  import opened Types
  import opened Permissions
  import opened Model
  import opened Runs
  import opened Frames

  predicate Terminal(s: SessionState) {
    s != Pending && s != Active
  }

  /** What a section takes from outside: its clock reading, its map order, its fresh names, and
      the user who asks for a challenge if it is that. */
  datatype Context = Context(now: Time, order: seq<Id>, draws: seq<string>, challenger: Option<Id>)

  function ContextOf(e: Event): Context {
    Context(e.now, e.order, Draws(e.input), if e.input.NewChallenge? then Some(e.input.user) else None)
  }

  /** The conditions under which the sections apply each session effect. */
  ghost predicate Allowed(st: State, effect: Effect, x: Context) {
    match effect
    case Quiet => true
    case Create(v) =>
      && x.draws == [v.id]
      && v.state == Pending && v.granted == [] && v.epoch == 1 && ValidGrant(v.requested)
      && v.created == x.now && v.expires == x.now + REQUEST_LIFETIME
      && Backed(st.devices, v)
      && !HasOpenTo(st.sessions, v.operator, v.target)
      && |OpenOf(st.sessions, v.operator)| < MAX_OPEN_SESSIONS
    case EndWhere(which, final, _, order) =>
      Terminal(final) && final != Rejected && IsOrder(order, st.sessions.Keys)
    case EndOne(id, final, _) =>
      && id in st.sessions && Open(st.sessions[id])
      && Terminal(final) && (final == Rejected ==> st.sessions[id].state == Pending)
    case Approve(id, grant, until, _) =>
      && id in st.sessions && st.sessions[id].state == Pending
      && until == x.now + SESSION_LIFETIME && MayGrant(st.sessions, id, grant)
    case Regrant(id, grant, _) =>
      id in st.sessions && st.sessions[id].state == Active && MayGrant(st.sessions, id, grant)
    case Handover(id, _) =>
      id in st.sessions && st.sessions[id].state == Active && Controls(st.sessions[id].requested)
  }

  ghost predicate MayGrant(sessions: map<Id, SessionRec>, id: Id, grant: seq<Permission>)
    requires id in sessions
  {
    && ValidGrant(grant) && Within(grant, sessions[id].requested)
    && (Controls(grant) ==> !ControllerBusy(sessions, id))
  }

  /** Two different registered devices in use, the source the operator's own, with the keys the
      session recorded. */
  predicate Backed(devices: map<Id, DeviceRec>, v: SessionRec) {
    && v.source in devices && v.target in devices && v.source != v.target
    && !devices[v.source].revoked && !devices[v.target].revoked
    && devices[v.source].owner == v.operator
    && devices[v.source].key == v.sourceKey && devices[v.target].key == v.targetKey
  }

  /** Devices stay, keep owner and key, and are never un-revoked; one that becomes revoked takes
      its open sessions with it; a new one has a new key and an owner below the limit. */
  ghost predicate DevicesMove(devices: map<Id, DeviceRec>, devices': map<Id, DeviceRec>, effect: Effect, x: Context) {
    && (forall id :: id in devices ==>
          && id in devices'
          && devices'[id].id == devices[id].id
          && devices'[id].owner == devices[id].owner
          && devices'[id].key == devices[id].key
          && (devices[id].revoked ==> devices'[id].revoked)
          && (devices'[id].revoked && !devices[id].revoked ==>
                effect.EndWhere? && effect.which == OnDevice(id)))
    && (forall id :: id in devices' && id !in devices ==>
          && x.draws == [id]
          && devices'[id].id == id && !devices'[id].revoked
          && (forall k :: k in devices ==> devices[k].key != devices'[id].key)
          && |ActiveDevices(devices, devices'[id].owner)| < MAX_DEVICES)
  }

  ghost predicate Sound(st: State, o: Outcome, x: Context) {
    && o.base.sessions == st.sessions
    && o.base.history == st.history
    && o.base.key == st.key && o.base.iceUrls == st.iceUrls
    && Allowed(o.base, o.effect, x)
    && DevicesMove(st.devices, o.base.devices, o.effect, x)
    && NoSessionEvents(o.tail)
  }

  // ---------- section by section ----------

  predicate SameCore(st: State, base: State) {
    && base.devices == st.devices && base.sessions == st.sessions && base.history == st.history
    && base.key == st.key && base.iceUrls == st.iceUrls
  }

  lemma SameCoreIsSound(st: State, o: Outcome, x: Context)
    requires SameCore(st, o.base) && Allowed(o.base, o.effect, x) && NoSessionEvents(o.tail)
    ensures Sound(st, o, x)
  {
  }

  lemma ArriveIsSound(st: State, host: string, authPath: bool, x: Context, purge: bool)
    requires IsOrder(x.order, st.sessions.Keys)
    ensures Sound(st, PlanArrive(st, host, authPath, x.now, x.order, purge), x)
  {
  }

  lemma EndingIsSound(st: State, o: Outcome, x: Context)
    requires SameCore(st, o.base) && NoSessionEvents(o.tail)
    requires o.effect.EndWhere? && Terminal(o.effect.final) && o.effect.final != Rejected
    requires IsOrder(o.effect.order, st.sessions.Keys)
    ensures Sound(st, o, x)
  {
    SameCoreIsSound(st, o, x);
  }

  lemma RotateIsSound(st: State, token: string, raw: string, x: Context)
    requires OwnersExist(st) && IsOrder(x.order, st.sessions.Keys)
    ensures Sound(st, PlanRotate(st, token, raw, x.now, x.order), x)
  {
    var o := PlanRotate(st, token, raw, x.now, x.order);
    if o.effect.EndWhere? {
      EndingIsSound(st, o, x);
    } else {
      SameCoreIsSound(st, o, x);
    }
  }

  lemma LogoutIsSound(st: State, user: Id, x: Context)
    requires user in st.accounts && IsOrder(x.order, st.sessions.Keys)
    ensures Sound(st, PlanLogout(st, user, x.now, x.order), x)
  {
  }

  lemma Through(st: State, st': State, o: Outcome, x: Context)
    requires SameCore(st, st') && Sound(st', o, x)
    ensures Sound(st, o, x)
  {
  }

  /** One device's record changes, in the fields that may. */
  lemma DeviceChangeIsSound(st: State, id: Id, d: DeviceRec, effect: Effect, tail: seq<Audit>, reply: Response,
                            x: Context)
    requires id in st.devices
    requires d.id == st.devices[id].id && d.owner == st.devices[id].owner && d.key == st.devices[id].key
    requires st.devices[id].revoked ==> d.revoked
    requires d.revoked && !st.devices[id].revoked ==> effect.EndWhere? && effect.which == OnDevice(id)
    requires Allowed(st.(devices := st.devices[id := d]), effect, x) && NoSessionEvents(tail)
    ensures Sound(st, Outcome(st.(devices := st.devices[id := d]), effect, tail, reply), x)
  {
  }

  lemma NewDeviceIsSound(st: State, d: DeviceRec, tail: seq<Audit>, reply: Response, x: Context)
    requires d.id !in st.devices && x.draws == [d.id] && !d.revoked && NoSessionEvents(tail)
    requires forall k :: k in st.devices ==> st.devices[k].key != d.key
    requires |ActiveDevices(st.devices, d.owner)| < MAX_DEVICES
    ensures Sound(st, Outcome(st.(devices := st.devices[d.id := d]), Quiet, tail, reply), x)
  {
  }

  lemma ConfirmIsSound(st: State, user: Id, holder: Id, name: string, os: string, kind: string, x: Context)
    requires holder in st.devices
    ensures Sound(st, Confirm(st, user, holder, name, os, kind, x.now), x)
  {
    var o := Confirm(st, user, holder, name, os, kind, x.now);
    if o.reply.DeviceOut? {
      DeviceChangeIsSound(st, holder, o.base.devices[holder], Quiet, o.tail, o.reply, x);
    } else {
      SameCoreIsSound(st, o, x);
    }
  }

  lemma EnrolNewIsSound(st: State, user: Id, name: string, key: string, os: string, kind: string, id: Id, x: Context)
    requires x.draws == [id] && id !in st.devices
    requires !exists holder :: HoldsKey(st.devices, holder, key)
    ensures Sound(st, Enrol(st, user, name, key, os, kind, id, x.now), x)
  {
    var d := DeviceRec(id, user, key, name, os, kind, ZERO_TIME, false);
    if |ActiveDevices(st.devices, user)| < MAX_DEVICES {
      forall k | k in st.devices ensures st.devices[k].key != key {
        assert !HoldsKey(st.devices, k, key);
      }
      NewDeviceIsSound(st, d, [Audit(user, DeviceRegistered, id, x.now)], DeviceOut(201, d), x);
    } else {
      SameCoreIsSound(st, Refuse(st, 409, DeviceLimit), x);
    }
  }

  lemma EnrolIsSound(st: State, user: Id, name: string, key: string, os: string, kind: string, id: Id, x: Context)
    requires x.draws == [id] && id !in st.devices
    ensures Sound(st, Enrol(st, user, name, key, os, kind, id, x.now), x)
  {
    if exists holder :: HoldsKey(st.devices, holder, key) {
      forall holder | HoldsKey(st.devices, holder, key)
        ensures Sound(st, Confirm(st, user, holder, name, os, kind, x.now), x)
      {
        ConfirmIsSound(st, user, holder, name, os, kind, x);
      }
    } else {
      EnrolNewIsSound(st, user, name, key, os, kind, id, x);
    }
  }

  lemma RegisterDeviceIsSound(st: State, user: Id, p: Proof, name: string, key: string, os: string,
                              kind: string, id: Id, x: Context)
    requires x.draws == [id] && id !in st.devices
    ensures Sound(st, PlanRegisterDevice(st, user, p, name, key, os, kind, id, x.now), x)
  {
    var st' := Spend(st, p.nonce);
    EnrolIsSound(st', user, name, key, os, DefaultKind(kind), id, x);
    Through(st, st', Enrol(st', user, name, key, os, DefaultKind(kind), id, x.now), x);
    SameCoreIsSound(st, Refuse(st, 400, BadDevice), x);
    SameCoreIsSound(st, Refuse(st', 403, DeviceProofRequired), x);
  }

  lemma RevokeDeviceIsSound(st: State, user: Id, id: Id, x: Context)
    requires IsOrder(x.order, st.sessions.Keys)
    ensures Sound(st, PlanRevokeDevice(st, user, id, x.now, x.order), x)
  {
    var o := PlanRevokeDevice(st, user, id, x.now, x.order);
    if o.effect.EndWhere? {
      DeviceChangeIsSound(st, id, st.devices[id].(revoked := true), o.effect, o.tail, o.reply, x);
    } else {
      SameCoreIsSound(st, o, x);
    }
  }

  lemma ProposeIsSound(st: State, user: Id, source: Id, target: Id, grant: seq<Permission>, id: Id, x: Context)
    requires x.draws == [id] && source in st.devices && target in st.devices && source != target
    requires !st.devices[source].revoked && !st.devices[target].revoked && st.devices[source].owner == user
    ensures Sound(st, Propose(st, user, source, target, grant, id, x.now), x)
  {
    SameCoreIsSound(st, Propose(st, user, source, target, grant, id, x.now), x);
  }

  lemma RequestIsSound(st: State, user: Id, p: Proof, source: Id, target: Id, grant: seq<Permission>, id: Id,
                       x: Context)
    requires x.draws == [id]
    ensures Sound(st, PlanRequest(st, user, p, source, target, grant, id, x.now), x)
  {
    var st' := Spend(st, p.nonce);
    SameCoreIsSound(st, Refuse(st, 404, DevicesUnavailable), x);
    SameCoreIsSound(st, Refuse(st', 403, SourceProofRequired), x);
    if Live(st, source, x.now) && st.devices[source].owner == user && Live(st, target, x.now) && source != target {
      ProposeIsSound(st', user, source, target, grant, id, x);
      Through(st, st', Propose(st', user, source, target, grant, id, x.now), x);
    }
  }

  lemma GateIsSound(st: State, user: Id, p: Proof, id: Id, x: Context)
    requires TargetsExist(st)
    ensures var g := TargetGate(st, user, p, id, x.now);
            && SameCore(st, g.st)
            && (g.Stop? ==> Sound(st, Refuse(g.st, g.code, g.reason), x))
  {
    var g := TargetGate(st, user, p, id, x.now);
    assert SameCore(st, g.st);
    if g.Stop? {
      SameCoreIsSound(st, Refuse(g.st, g.code, g.reason), x);
    }
  }

  lemma DecideOnIsSound(st: State, user: Id, id: Id, approve: bool, grant: seq<Permission>, x: Context)
    requires id in st.sessions
    ensures Sound(st, DecideOn(st, user, id, approve, grant, x.now), x)
  {
    SameCoreIsSound(st, DecideOn(st, user, id, approve, grant, x.now), x);
  }

  lemma DecideIsSound(st: State, user: Id, p: Proof, id: Id, approve: bool, grant: seq<Permission>, x: Context)
    requires TargetsExist(st)
    ensures Sound(st, PlanDecide(st, user, p, id, approve, grant, x.now), x)
  {
    GateIsSound(st, user, p, id, x);
    var g := TargetGate(st, user, p, id, x.now);
    if g.Pass? {
      DecideOnIsSound(g.st, user, id, approve, grant, x);
      Through(st, g.st, DecideOn(g.st, user, id, approve, grant, x.now), x);
    }
  }

  lemma ChangeOnIsSound(st: State, user: Id, id: Id, grant: seq<Permission>, x: Context)
    requires id in st.sessions
    ensures Sound(st, ChangeOn(st, user, id, grant), x)
  {
    SameCoreIsSound(st, ChangeOn(st, user, id, grant), x);
  }

  lemma ChangeIsSound(st: State, user: Id, p: Proof, id: Id, grant: seq<Permission>, x: Context)
    requires TargetsExist(st)
    ensures Sound(st, PlanChange(st, user, p, id, grant, x.now), x)
  {
    GateIsSound(st, user, p, id, x);
    var g := TargetGate(st, user, p, id, x.now);
    if g.Pass? {
      ChangeOnIsSound(g.st, user, id, grant, x);
      Through(st, g.st, ChangeOn(g.st, user, id, grant), x);
    }
  }

  lemma HandoverToIsSound(st: State, user: Id, id: Id, x: Context)
    requires id in st.sessions
    ensures Sound(st, HandoverTo(st, user, id), x)
  {
    SameCoreIsSound(st, HandoverTo(st, user, id), x);
  }

  lemma HandoverIsSound(st: State, user: Id, p: Proof, id: Id, x: Context)
    requires TargetsExist(st)
    ensures Sound(st, PlanHandover(st, user, p, id, x.now), x)
  {
    GateIsSound(st, user, p, id, x);
    var g := TargetGate(st, user, p, id, x.now);
    if g.Pass? {
      HandoverToIsSound(g.st, user, id, x);
      Through(st, g.st, HandoverTo(g.st, user, id), x);
    }
  }

  lemma StopIsSound(st: State, user: Id, id: Id, x: Context)
    ensures Sound(st, PlanStop(st, user, id), x)
  {
    SameCoreIsSound(st, PlanStop(st, user, id), x);
  }

  lemma TouchIsSound(st: State, id: Id, x: Context)
    ensures Sound(st, PlanTouch(st, id, x.now), x)
  {
    if id in st.devices {
      DeviceChangeIsSound(st, id, st.devices[id].(lastSeen := x.now), Quiet, [], Done, x);
    } else {
      SameCoreIsSound(st, PlanTouch(st, id, x.now), x);
    }
  }

  /** Inputs that change no session and no device. */
  predicate LeavesCore(i: Input) {
    || i.Register? || i.Login? || i.VerifyAccess? || i.NewChallenge? || i.ListAudit? || i.IceConfiguration?
    || i.Connect? || i.Disconnect? || i.Analyze?
  }

  lemma LeavesCoreIsSound(st: State, e: Event, purge: bool)
    requires LeavesCore(e.input) && Defined(st, e.input)
    ensures Sound(st, Plan(st, e, purge), ContextOf(e))
  {
    PlanFramed(st, e, purge);
    SameCoreIsSound(st, Plan(st, e, purge), ContextOf(e));
  }

  /** Every section, over any state, with and without the purge. */
  lemma PlanIsSound(st: State, e: Event, purge: bool)
    requires Defined(st, e.input) && IsOrder(e.order, st.sessions.Keys)
    requires forall y :: y in Draws(e.input) ==> y !in st.devices
    ensures Sound(st, Plan(st, e, purge), ContextOf(e))
  {
    var x := ContextOf(e);
    if LeavesCore(e.input) {
      LeavesCoreIsSound(st, e, purge);
    } else {
      match e.input
      case Arrive(host, authPath) => ArriveIsSound(st, host, authPath, x, purge);
      case Rotate(token, raw) => RotateIsSound(st, token, raw, x);
      case Logout(user) => LogoutIsSound(st, user, x);
      case RegisterDevice(user, p, name, key, os, kind, id) =>
        RegisterDeviceIsSound(st, user, p, name, key, os, kind, id, x);
      case RevokeDevice(user, id) => RevokeDeviceIsSound(st, user, id, x);
      case RequestSession(user, p, source, target, grant, id) =>
        RequestIsSound(st, user, p, source, target, grant, id, x);
      case Decide(user, p, id, approve, grant) => DecideIsSound(st, user, p, id, approve, grant, x);
      case ChangePermissions(user, p, id, grant) => ChangeIsSound(st, user, p, id, grant, x);
      case HandControl(user, p, id) => HandoverIsSound(st, user, p, id, x);
      case StopSession(user, id) => StopIsSound(st, user, id, x);
      case Touch(id) => TouchIsSound(st, id, x);
    }
  }
}
