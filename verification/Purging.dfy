/** Deleting stale challenges, rate windows and refresh tokens changes no answer of any run. */
module Purging {
  import opened Types
  import opened Model
  import opened Runs
  import opened Worlds

  // ---------- a store with stale entries deleted ----------

  /** `few` is `many` without some entries whose time was up at the clock. */
  ghost predicate FewerChallenges(few: map<string, Challenge>, many: map<string, Challenge>, clock: Time) {
    && (forall k :: k in few ==> k in many && few[k] == many[k])
    && (forall k :: k in many && k !in few ==> many[k].expires <= clock)
  }

  ghost predicate FewerRates(few: map<string, Rate>, many: map<string, Rate>, clock: Time) {
    && (forall k :: k in few ==> k in many && few[k] == many[k])
    && (forall k :: k in many && k !in few ==> many[k].until <= clock)
  }

  ghost predicate FewerTokens(few: map<Digest, RefreshRec>, many: map<Digest, RefreshRec>, clock: Time) {
    && (forall k :: k in few ==> k in many && few[k] == many[k])
    && (forall k :: k in many && k !in few ==> many[k].expires <= clock)
  }

  ghost predicate Fewer(few: State, many: State, clock: Time) {
    && few == many.(challenges := few.challenges, rates := few.rates, refresh := few.refresh)
    && FewerChallenges(few.challenges, many.challenges, clock)
    && FewerRates(few.rates, many.rates, clock)
    && FewerTokens(few.refresh, many.refresh, clock)
  }

  ghost predicate Alike(o: Outcome, o': Outcome, now: Time) {
    Fewer(o.base, o'.base, now) && o.effect == o'.effect && o.tail == o'.tail && o.reply == o'.reply
  }

  lemma CommitAlike(o: Outcome, o': Outcome, now: Time)
    requires Alike(o, o', now)
    ensures Fewer(Commit(o, now), Commit(o', now), now)
  {
  }

  // ---------- section by section ----------

  lemma PurgeIsFewer(few: State, many: State, clock: Time, now: Time)
    requires Fewer(few, many, clock) && clock <= now
    ensures Fewer(Purge(few, now), many, now)
  {
  }

  lemma ChargeAlike(few: map<string, Rate>, many: map<string, Rate>, key: string, now: Time)
    requires FewerRates(few, many, now) && now >= 0
    ensures Charge(few, key, now) == Charge(many, key, now)
  {
  }

  lemma ArriveAlike(few: State, many: State, host: string, authPath: bool, clock: Time, now: Time, order: seq<Id>)
    requires Fewer(few, many, clock) && clock <= now && now >= 0
    ensures Alike(PlanArrive(few, host, authPath, now, order, true),
                  PlanArrive(many, host, authPath, now, order, false), now)
  {
    PurgeIsFewer(few, many, clock, now);
    ChargeAlike(Purge(few, now).rates, many.rates, RateKey(host, authPath), now);
  }

  lemma Later(few: State, many: State, clock: Time, now: Time)
    requires Fewer(few, many, clock) && clock <= now
    ensures Fewer(few, many, now)
  {
  }

  lemma IssueAlike(few: State, many: State, user: Id, family: string, raw: string, now: Time)
    requires Fewer(few, many, now)
    ensures Fewer(Issue(few, user, family, raw, now), Issue(many, user, family, raw, now), now)
  {
  }

  function WithAccount(st: State, email: string, a: AccountRec): State {
    st.(accounts := st.accounts[a.id := a], emails := st.emails[email := a.id])
  }

  lemma AccountAlike(few: State, many: State, email: string, a: AccountRec, now: Time)
    requires Fewer(few, many, now)
    ensures Fewer(WithAccount(few, email, a), WithAccount(many, email, a), now)
  {
  }

  lemma RegisterAlike(few: State, many: State, ok: bool, email: string, name: string, password: string,
                      id: Id, family: string, raw: string, now: Time)
    requires Fewer(few, many, now)
    ensures Alike(PlanRegister(few, ok, email, name, password, id, family, raw, now),
                  PlanRegister(many, ok, email, name, password, id, family, raw, now), now)
  {
    AccountAlike(few, many, email, AccountRec(id, email, name, PasswordHash(password), 0), now);
    IssueAlike(WithAccount(few, email, AccountRec(id, email, name, PasswordHash(password), 0)),
               WithAccount(many, email, AccountRec(id, email, name, PasswordHash(password), 0)), id, family, raw, now);
  }

  lemma LoginAlike(few: State, many: State, email: string, password: string, family: string, raw: string, now: Time)
    requires Fewer(few, many, now)
    ensures Alike(PlanLogin(few, email, password, family, raw, now),
                  PlanLogin(many, email, password, family, raw, now), now)
  {
    var account := AccountFor(few, email, password);
    assert account == AccountFor(many, email, password);
    if account.Some? {
      IssueAlike(few, many, account.value, family, raw, now);
    }
  }

  lemma InvalidateAlike(few: State, many: State, user: Id, now: Time)
    requires Fewer(few, many, now) && user in few.accounts
    ensures Fewer(Invalidate(few, user), Invalidate(many, user), now)
  {
  }

  lemma UseFamilyAlike(few: State, many: State, family: string, now: Time)
    requires Fewer(few, many, now)
    ensures Fewer(few.(refresh := UseFamily(few.refresh, family)),
                  many.(refresh := UseFamily(many.refresh, family)), now)
  {
  }

  lemma UseOneAlike(few: State, many: State, d: Digest, now: Time)
    requires Fewer(few, many, now) && d in few.refresh
    ensures d in many.refresh && many.refresh[d] == few.refresh[d]
    ensures var t := few.refresh[d].(used := true);
            Fewer(few.(refresh := few.refresh[d := t]), many.(refresh := many.refresh[d := t]), now)
  {
  }

  lemma ReuseAlike(few: State, many: State, token: string, raw: string, now: Time, order: seq<Id>)
    requires Fewer(few, many, now) && OwnersExist(few) && OwnersExist(many)
    requires var d := Digest(token); d in few.refresh && now < few.refresh[d].expires && few.refresh[d].used
    ensures Alike(PlanRotate(few, token, raw, now, order), PlanRotate(many, token, raw, now, order), now)
  {
    var t := few.refresh[Digest(token)];
    UseFamilyAlike(few, many, t.family, now);
    InvalidateAlike(few.(refresh := UseFamily(few.refresh, t.family)),
                    many.(refresh := UseFamily(many.refresh, t.family)), t.user, now);
  }

  lemma FirstUseAlike(few: State, many: State, token: string, raw: string, now: Time, order: seq<Id>)
    requires Fewer(few, many, now) && OwnersExist(few) && OwnersExist(many)
    requires var d := Digest(token); d in few.refresh && now < few.refresh[d].expires && !few.refresh[d].used
    ensures Alike(PlanRotate(few, token, raw, now, order), PlanRotate(many, token, raw, now, order), now)
  {
    var d := Digest(token);
    var t := few.refresh[d];
    UseOneAlike(few, many, d, now);
    IssueAlike(few.(refresh := few.refresh[d := t.(used := true)]),
               many.(refresh := many.refresh[d := t.(used := true)]), t.user, t.family, raw, now);
  }

  lemma RotateAlike(few: State, many: State, token: string, raw: string, now: Time, order: seq<Id>)
    requires Fewer(few, many, now) && OwnersExist(few) && OwnersExist(many)
    ensures Alike(PlanRotate(few, token, raw, now, order), PlanRotate(many, token, raw, now, order), now)
  {
    var d := Digest(token);
    if d in few.refresh && now < few.refresh[d].expires {
      if few.refresh[d].used {
        ReuseAlike(few, many, token, raw, now, order);
      } else {
        FirstUseAlike(few, many, token, raw, now, order);
      }
    }
  }

  lemma LogoutAlike(few: State, many: State, user: Id, now: Time, order: seq<Id>)
    requires Fewer(few, many, now) && user in few.accounts
    ensures Alike(PlanLogout(few, user, now, order), PlanLogout(many, user, now, order), now)
  {
    InvalidateAlike(few, many, user, now);
  }

  lemma NewChallengeAlike(few: State, many: State, user: Id, nonce: string, now: Time)
    requires Fewer(few, many, now)
    ensures Alike(PlanNewChallenge(few, user, nonce, now), PlanNewChallenge(many, user, nonce, now), now)
  {
  }

  /** A proof on a deleted challenge fails either way: its minute was over. */
  lemma ProofAlike(few: State, many: State, user: Id, key: string, p: Proof, now: Time)
    requires Fewer(few, many, now)
    ensures ProofOk(few, user, key, p, now) <==> ProofOk(many, user, key, p, now)
    ensures Fewer(Spend(few, p.nonce), Spend(many, p.nonce), now)
  {
  }

  lemma DeviceAlike(few: State, many: State, id: Id, d: DeviceRec, now: Time)
    requires Fewer(few, many, now)
    ensures Fewer(few.(devices := few.devices[id := d]), many.(devices := many.devices[id := d]), now)
  {
  }

  lemma ConfirmAlike(few: State, many: State, user: Id, holder: Id, name: string, os: string, kind: string, now: Time)
    requires Fewer(few, many, now) && holder in few.devices
    ensures Alike(Confirm(few, user, holder, name, os, kind, now),
                  Confirm(many, user, holder, name, os, kind, now), now)
  {
    DeviceAlike(few, many, holder, few.devices[holder].(name := name, os := os, kind := kind), now);
  }

  lemma EnrolAlike(few: State, many: State, user: Id, name: string, key: string, os: string, kind: string, id: Id,
                   now: Time)
    requires Fewer(few, many, now) && UniqueKeys(few.devices)
    ensures Alike(Enrol(few, user, name, key, os, kind, id, now), Enrol(many, user, name, key, os, kind, id, now), now)
  {
    if h :| HoldsKey(few.devices, h, key) {
      forall h' | HoldsKey(many.devices, h', key) ensures h' == h {
      }
      ConfirmAlike(few, many, user, h, name, os, kind, now);
    } else {
      DeviceAlike(few, many, id, DeviceRec(id, user, key, name, os, kind, ZERO_TIME, false), now);
    }
  }

  lemma RegisterDeviceAlike(few: State, many: State, user: Id, p: Proof, name: string, key: string, os: string,
                            kind: string, id: Id, now: Time)
    requires Fewer(few, many, now) && UniqueKeys(few.devices)
    ensures Alike(PlanRegisterDevice(few, user, p, name, key, os, kind, id, now),
                  PlanRegisterDevice(many, user, p, name, key, os, kind, id, now), now)
  {
    ProofAlike(few, many, user, key, p, now);
    EnrolAlike(Spend(few, p.nonce), Spend(many, p.nonce), user, name, key, os, DefaultKind(kind), id, now);
  }

  lemma RevokeDeviceAlike(few: State, many: State, user: Id, id: Id, now: Time, order: seq<Id>)
    requires Fewer(few, many, now)
    ensures Alike(PlanRevokeDevice(few, user, id, now, order), PlanRevokeDevice(many, user, id, now, order), now)
  {
    if id in few.devices {
      DeviceAlike(few, many, id, few.devices[id].(revoked := true), now);
    }
  }

  lemma ProposeAlike(few: State, many: State, user: Id, source: Id, target: Id, grant: seq<Permission>, id: Id,
                     now: Time)
    requires Fewer(few, many, now) && source in few.devices && target in few.devices
    ensures Alike(Propose(few, user, source, target, grant, id, now),
                  Propose(many, user, source, target, grant, id, now), now)
  {
    assert few.sessions == many.sessions && few.devices == many.devices;
  }

  lemma RequestAlike(few: State, many: State, user: Id, p: Proof, source: Id, target: Id, grant: seq<Permission>,
                     id: Id, now: Time)
    requires Fewer(few, many, now)
    ensures Alike(PlanRequest(few, user, p, source, target, grant, id, now),
                  PlanRequest(many, user, p, source, target, grant, id, now), now)
  {
    if Live(few, source, now) && Live(few, target, now) {
      ProofAlike(few, many, user, few.devices[source].key, p, now);
      ProposeAlike(Spend(few, p.nonce), Spend(many, p.nonce), user, source, target, grant, id, now);
    }
  }

  lemma GateAlike(few: State, many: State, user: Id, p: Proof, id: Id, now: Time)
    requires Fewer(few, many, now) && TargetsExist(few)
    ensures var g, g' := TargetGate(few, user, p, id, now), TargetGate(many, user, p, id, now);
            && Fewer(g.st, g'.st, now)
            && g == (if g'.Pass? then Pass(g.st) else Stop(g.st, g'.code, g'.reason))
  {
    if id in few.sessions {
      ProofAlike(few, many, user, few.devices[few.sessions[id].target].key, p, now);
    }
  }

  lemma DecideOnAlike(few: State, many: State, user: Id, id: Id, approve: bool, grant: seq<Permission>, now: Time)
    requires Fewer(few, many, now) && id in few.sessions
    ensures Alike(DecideOn(few, user, id, approve, grant, now), DecideOn(many, user, id, approve, grant, now), now)
  {
  }

  lemma DecideAlike(few: State, many: State, user: Id, p: Proof, id: Id, approve: bool, grant: seq<Permission>,
                    now: Time)
    requires Fewer(few, many, now) && TargetsExist(few)
    ensures Alike(PlanDecide(few, user, p, id, approve, grant, now),
                  PlanDecide(many, user, p, id, approve, grant, now), now)
  {
    GateAlike(few, many, user, p, id, now);
    var g, g' := TargetGate(few, user, p, id, now), TargetGate(many, user, p, id, now);
    if g.Pass? {
      DecideOnAlike(g.st, g'.st, user, id, approve, grant, now);
    }
  }

  lemma ChangeOnAlike(few: State, many: State, user: Id, id: Id, grant: seq<Permission>, now: Time)
    requires Fewer(few, many, now) && id in few.sessions
    ensures Alike(ChangeOn(few, user, id, grant), ChangeOn(many, user, id, grant), now)
  {
    assert few.sessions == many.sessions && few.devices == many.devices;
  }

  lemma ChangeAlike(few: State, many: State, user: Id, p: Proof, id: Id, grant: seq<Permission>, now: Time)
    requires Fewer(few, many, now) && TargetsExist(few)
    ensures Alike(PlanChange(few, user, p, id, grant, now), PlanChange(many, user, p, id, grant, now), now)
  {
    GateAlike(few, many, user, p, id, now);
    var g, g' := TargetGate(few, user, p, id, now), TargetGate(many, user, p, id, now);
    if g.Pass? {
      ChangeOnAlike(g.st, g'.st, user, id, grant, now);
    }
  }

  lemma HandoverAlike(few: State, many: State, user: Id, p: Proof, id: Id, now: Time)
    requires Fewer(few, many, now) && TargetsExist(few)
    ensures Alike(PlanHandover(few, user, p, id, now), PlanHandover(many, user, p, id, now), now)
  {
    GateAlike(few, many, user, p, id, now);
  }

  lemma StopAlike(few: State, many: State, user: Id, id: Id, now: Time)
    requires Fewer(few, many, now)
    ensures Alike(PlanStop(few, user, id), PlanStop(many, user, id), now)
  {
  }

  lemma VerifyAlike(few: State, many: State, token: Token.AccessToken, read: Time, now: Time)
    requires Fewer(few, many, now)
    ensures Alike(PlanVerifyAccess(few, token, read), PlanVerifyAccess(many, token, read), now)
  {
  }

  lemma ListAuditAlike(few: State, many: State, user: Id, now: Time)
    requires Fewer(few, many, now)
    ensures Alike(PlanListAudit(few, user), PlanListAudit(many, user), now)
  {
  }

  lemma IceAlike(few: State, many: State, user: Id, id: Id, now: Time)
    requires Fewer(few, many, now)
    ensures Alike(PlanIce(few, user, id, now), PlanIce(many, user, id, now), now)
  {
  }

  lemma PeersAlike(few: State, many: State, peers: set<Id>, now: Time)
    requires Fewer(few, many, now)
    ensures Alike(PlanPeers(few, peers), PlanPeers(many, peers), now)
  {
  }

  lemma TouchAlike(few: State, many: State, id: Id, now: Time)
    requires Fewer(few, many, now)
    ensures Alike(PlanTouch(few, id, now), PlanTouch(many, id, now), now)
  {
    if id in few.devices {
      DeviceAlike(few, many, id, few.devices[id].(lastSeen := now), now);
    }
  }

  lemma AnalyzeAlike(few: State, many: State, user: Id, id: Id, now: Time)
    requires Fewer(few, many, now)
    ensures Alike(PlanAnalyze(few, user, id, now), PlanAnalyze(many, user, id, now), now)
  {
  }

  // ---------- any section, any run ----------

  /** Sections that are about tokens. */
  predicate AboutAccess(i: Input) {
    i.Arrive? || i.Register? || i.Login? || i.Rotate? || i.Logout? || i.VerifyAccess?
  }

  /** Sections that are about devices. */
  predicate AboutDevices(i: Input) {
    i.NewChallenge? || i.RegisterDevice? || i.RevokeDevice?
  }

  /** The environment. */
  predicate IsOutside(i: Input) {
    i.Connect? || i.Disconnect? || i.Touch? || i.Analyze?
  }

  lemma AccessPlanAlike(few: State, many: State, e: Event, clock: Time)
    requires Fewer(few, many, clock) && clock <= e.now && e.now >= 0 && AboutAccess(e.input)
    requires Defined(few, e.input) && Defined(many, e.input)
    ensures Alike(Plan(few, e, true), Plan(many, e, false), e.now)
  {
    var now := e.now;
    Later(few, many, clock, now);
    match e.input
    case Arrive(host, authPath) => ArriveAlike(few, many, host, authPath, clock, now, e.order);
    case Register(ok, email, name, password, id, family, raw) =>
      RegisterAlike(few, many, ok, email, name, password, id, family, raw, now);
    case Login(email, password, family, raw) => LoginAlike(few, many, email, password, family, raw, now);
    case Rotate(token, raw) => RotateAlike(few, many, token, raw, now, e.order);
    case Logout(user) => LogoutAlike(few, many, user, now, e.order);
    case VerifyAccess(access, read) => VerifyAlike(few, many, access, read, now);
  }

  lemma DevicePlanAlike(few: State, many: State, e: Event)
    requires Fewer(few, many, e.now) && AboutDevices(e.input) && UniqueKeys(few.devices)
    requires Defined(few, e.input) && Defined(many, e.input)
    ensures Alike(Plan(few, e, true), Plan(many, e, false), e.now)
  {
    var now := e.now;
    match e.input
    case NewChallenge(user, nonce) => NewChallengeAlike(few, many, user, nonce, now);
    case RegisterDevice(user, p, name, key, os, kind, id) =>
      RegisterDeviceAlike(few, many, user, p, name, key, os, kind, id, now);
    case RevokeDevice(user, id) => RevokeDeviceAlike(few, many, user, id, now, e.order);
  }

  lemma PeersPlanAlike(few: State, many: State, e: Event)
    requires Fewer(few, many, e.now) && (e.input.Connect? || e.input.Disconnect?)
    requires Defined(few, e.input) && Defined(many, e.input)
    ensures Alike(Plan(few, e, true), Plan(many, e, false), e.now)
  {
    var id := e.input.id;
    var peers := if e.input.Connect? then few.peers + {id} else few.peers - {id};
    assert Plan(few, e, true) == PlanPeers(few, peers);
    assert Plan(many, e, false) == PlanPeers(many, peers);
    PeersAlike(few, many, peers, e.now);
  }

  lemma TouchPlanAlike(few: State, many: State, e: Event)
    requires Fewer(few, many, e.now) && e.input.Touch?
    requires Defined(few, e.input) && Defined(many, e.input)
    ensures Alike(Plan(few, e, true), Plan(many, e, false), e.now)
  {
    assert Plan(few, e, true) == PlanTouch(few, e.input.id, e.now);
    assert Plan(many, e, false) == PlanTouch(many, e.input.id, e.now);
    TouchAlike(few, many, e.input.id, e.now);
  }

  lemma OutsidePlanAlike(few: State, many: State, e: Event)
    requires Fewer(few, many, e.now) && IsOutside(e.input)
    requires Defined(few, e.input) && Defined(many, e.input)
    ensures Alike(Plan(few, e, true), Plan(many, e, false), e.now)
  {
    if e.input.Connect? || e.input.Disconnect? {
      PeersPlanAlike(few, many, e);
    } else if e.input.Touch? {
      TouchPlanAlike(few, many, e);
    } else {
      AnalyzeAlike(few, many, e.input.user, e.input.id, e.now);
    }
  }

  lemma SessionPlanAlike(few: State, many: State, e: Event)
    requires Fewer(few, many, e.now) && !AboutAccess(e.input) && !AboutDevices(e.input) && !IsOutside(e.input)
    requires Defined(few, e.input) && Defined(many, e.input)
    ensures Alike(Plan(few, e, true), Plan(many, e, false), e.now)
  {
    var now := e.now;
    match e.input
    case RequestSession(user, p, source, target, grant, id) =>
      RequestAlike(few, many, user, p, source, target, grant, id, now);
    case Decide(user, p, id, approve, grant) => DecideAlike(few, many, user, p, id, approve, grant, now);
    case ChangePermissions(user, p, id, grant) => ChangeAlike(few, many, user, p, id, grant, now);
    case HandControl(user, p, id) => HandoverAlike(few, many, user, p, id, now);
    case StopSession(user, id) => StopAlike(few, many, user, id, now);
    case ListAudit(user) => ListAuditAlike(few, many, user, now);
    case IceConfiguration(user, id) => IceAlike(few, many, user, id, now);
  }

  ghost predicate Shadows(w: World, w': World) {
    Fewer(w.st, w'.st, w.clock) && w.issued == w'.issued && w.clock == w'.clock
  }

  lemma StepShadows(w: World, w': World, e: Event)
    requires Shadows(w, w') && Inv(w) && Inv(w') && Enabled(w, e)
    ensures Enabled(w', e) && Defined(w.st, e.input) && Defined(w'.st, e.input)
    ensures Shadows(Step(w, e, true), Step(w', e, false))
    ensures Reply(w, e, true) == Reply(w', e, false)
  {
    LookupsSucceed(w, e);
    LookupsSucceed(w', e);
    Later(w.st, w'.st, w.clock, e.now);
    if AboutAccess(e.input) {
      AccessPlanAlike(w.st, w'.st, e, w.clock);
    } else if AboutDevices(e.input) {
      DevicePlanAlike(w.st, w'.st, e);
    } else if IsOutside(e.input) {
      OutsidePlanAlike(w.st, w'.st, e);
    } else {
      SessionPlanAlike(w.st, w'.st, e);
    }
    CommitAlike(Plan(w.st, e, true), Plan(w'.st, e, false), e.now);
  }

  ghost predicate SameAnswer(w: World, w': World, e: Event) {
    Defined(w.st, e.input) && Defined(w'.st, e.input) && Reply(w, e, true) == Reply(w', e, false)
  }

  ghost predicate SameAnswers(ws: seq<World>, ws': seq<World>, es: seq<Event>)
    requires |ws| == |es| + 1 == |ws'|
  {
    forall n :: 0 <= n < |es| ==> SameAnswer(ws[n], ws'[n], es[n])
  }

  /** A run of the service and a run of one that never deletes an entry, answered alike. */
  ghost predicate Alongside(ws: seq<World>, ws': seq<World>, es: seq<Event>) {
    && IsRun(ws, es, true) && IsRun(ws', es, false)
    && SameAnswers(ws, ws', es) && Shadows(ws[|es|], ws'[|es|])
  }

  /** What may come next in the one may come next in the other. */
  lemma EnabledAlike(w: World, w': World, e: Event)
    requires Shadows(w, w')
    ensures Enabled(w, e) <==> Enabled(w', e)
  {
  }

  lemma AlongsideExtends(ws: seq<World>, ws': seq<World>, es: seq<Event>, e: Event)
    requires Alongside(ws, ws', es) && Enabled(ws[|es|], e)
    ensures Defined(ws[|es|].st, e.input) && Defined(ws'[|es|].st, e.input)
    ensures Alongside(ws + [Step(ws[|es|], e, true)], ws' + [Step(ws'[|es|], e, false)], es + [e])
  {
    var n := |es|;
    RunSound(ws, es, true, n);
    RunSound(ws', es, false, n);
    StepShadows(ws[n], ws'[n], e);
    ExtendsRun(ws, es, e, true);
    ExtendsRun(ws', es, e, false);
    AnswersExtend(ws, ws', es, e, Step(ws[n], e, true), Step(ws'[n], e, false));
  }

  lemma AnswerAt(ws: seq<World>, ws': seq<World>, es: seq<Event>, e: Event, w: World, w': World, n: nat)
    requires |ws| == |es| + 1 == |ws'| && n <= |es|
    requires if n < |es| then SameAnswer(ws[n], ws'[n], es[n]) else SameAnswer(ws[n], ws'[n], e)
    ensures SameAnswer((ws + [w])[n], (ws' + [w'])[n], (es + [e])[n])
  {
    assert (ws + [w])[n] == ws[n] && (ws' + [w'])[n] == ws'[n];
    assert (es + [e])[n] == if n < |es| then es[n] else e;
  }

  lemma AnswersExtend(ws: seq<World>, ws': seq<World>, es: seq<Event>, e: Event, w: World, w': World)
    requires |ws| == |es| + 1 == |ws'| && SameAnswers(ws, ws', es) && SameAnswer(ws[|es|], ws'[|es|], e)
    ensures SameAnswers(ws + [w], ws' + [w'], es + [e])
  {
    var more, more', all := ws + [w], ws' + [w'], es + [e];
    forall n | 0 <= n < |all| ensures SameAnswer(more[n], more'[n], all[n]) {
      AnswerAt(ws, ws', es, e, w, w', n);
    }
  }

  lemma LastStep(ws: seq<World>, es: seq<Event>, purge: bool)
    requires IsRun(ws, es, purge) && es != []
    ensures var n := |es| - 1;
            && IsRun(ws[..|es|], es[..n], purge) && ws[..|es|][n] == ws[n]
            && Enabled(ws[n], es[n]) && Defined(ws[n].st, es[n].input)
            && ws == ws[..|es|] + [Step(ws[n], es[n], purge)] && es == es[..n] + [es[n]]
  {
    PrefixIsRun(ws, es, purge);
  }

  /** Every run of the service is answered, event for event, like the run of a service that never
      deletes an entry. */
  lemma {:induction false} PurgeInvisible(ws: seq<World>, es: seq<Event>) returns (ws': seq<World>)
    requires IsRun(ws, es, true)
    ensures Alongside(ws, ws', es)
    decreases |es|
  {
    if es == [] {
      ws' := ws;
    } else {
      var n := |es| - 1;
      LastStep(ws, es, true);
      var before := PurgeInvisible(ws[..|es|], es[..n]);
      AlongsideExtends(ws[..|es|], before, es[..n], es[n]);
      ws' := before + [Step(before[n], es[n], false)];
    }
  }

  /** And every run of that service like the run of the one that does. */
  lemma {:induction false} KeepingInvisible(ws': seq<World>, es: seq<Event>) returns (ws: seq<World>)
    requires IsRun(ws', es, false)
    ensures Alongside(ws, ws', es)
    decreases |es|
  {
    if es == [] {
      ws := ws';
    } else {
      var n := |es| - 1;
      LastStep(ws', es, false);
      var before := KeepingInvisible(ws'[..|es|], es[..n]);
      EnabledAlike(before[n], ws'[n], es[n]);
      AlongsideExtends(before, ws'[..|es|], es[..n], es[n]);
      ws := before + [Step(before[n], es[n], true)];
    }
  }
}
