/** Who can enlarge a grant, and how often a proof is good. */
module Authority {
  import opened Wrappers
  import opened Types
  import opened Permissions
  import opened Model
  import opened Runs
  import opened Frames
  import opened Plans
  import opened Invariants
  import opened Worlds
  import opened Flow

  /** The owner of the session's target acts on it, through that device: the device is live, and
      the proof is one made with its key for an unexpired challenge of this user. */
  ghost predicate OwnerActs(st: State, e: Event, id: Id) {
    && (e.input.Decide? || e.input.ChangePermissions? || e.input.HandControl?)
    && e.input.id == id && id in st.sessions && st.sessions[id].target in st.devices
    && var target := st.devices[st.sessions[id].target];
       && target.owner == e.input.user
       && Live(st, st.sessions[id].target, e.now)
       && ProofOk(st, e.input.user, target.key, e.input.proof, e.now)
  }

  predicate Grants(e: Effect, id: Id) {
    (e.Approve? || e.Regrant? || e.Handover?) && e.id == id
  }

  lemma GateMeansOwner(st: State, e: Event)
    requires e.input.Decide? || e.input.ChangePermissions? || e.input.HandControl?
    requires TargetsExist(st) && TargetGate(st, e.input.user, e.input.proof, e.input.id, e.now).Pass?
    ensures OwnerActs(st, e, e.input.id)
  {
  }

  lemma DecideGrants(st: State, user: Id, p: Proof, id: Id, approve: bool, grant: seq<Permission>, now: Time, other: Id)
    requires TargetsExist(st) && Grants(PlanDecide(st, user, p, id, approve, grant, now).effect, other)
    ensures other == id && TargetGate(st, user, p, id, now).Pass?
    ensures PlanDecide(st, user, p, id, approve, grant, now).base == Spend(st, p.nonce)
    ensures PlanDecide(st, user, p, id, approve, grant, now).effect.grant == grant
  {
  }

  lemma ChangeGrants(st: State, user: Id, p: Proof, id: Id, grant: seq<Permission>, now: Time, other: Id)
    requires TargetsExist(st) && Grants(PlanChange(st, user, p, id, grant, now).effect, other)
    ensures other == id && TargetGate(st, user, p, id, now).Pass?
    ensures PlanChange(st, user, p, id, grant, now).base == Spend(st, p.nonce)
    ensures PlanChange(st, user, p, id, grant, now).effect.grant == grant
  {
  }

  lemma HandoverGrants(st: State, user: Id, p: Proof, id: Id, now: Time, other: Id)
    requires TargetsExist(st) && Grants(PlanHandover(st, user, p, id, now).effect, other)
    ensures other == id && TargetGate(st, user, p, id, now).Pass?
    ensures PlanHandover(st, user, p, id, now).base == Spend(st, p.nonce)
  {
  }

  /** Only the owner of a session's target makes the service give its session a grant, and the
      challenge is spent. */
  lemma GrantingNeedsOwner(st: State, e: Event, purge: bool, id: Id)
    requires Defined(st, e.input) && Grants(Plan(st, e, purge).effect, id)
    ensures OwnerActs(st, e, id) && Plan(st, e, purge).base == Spend(st, e.input.proof.nonce)
    ensures e.input.HandControl? == Plan(st, e, purge).effect.Handover?
    ensures !e.input.HandControl? ==> Plan(st, e, purge).effect.grant == e.input.grant
  {
    PlanFramed(st, e, purge);
    match e.input
    case Decide(user, p, id', approve, grant) =>
      DecideGrants(st, user, p, id', approve, grant, e.now, id);
      GateMeansOwner(st, e);
    case ChangePermissions(user, p, id', grant) =>
      ChangeGrants(st, user, p, id', grant, e.now, id);
      GateMeansOwner(st, e);
    case HandControl(user, p, id') =>
      HandoverGrants(st, user, p, id', e.now, id);
      GateMeansOwner(st, e);
  }

  lemma GrowsByGrant(sessions: map<Id, SessionRec>, e: Effect, id: Id, v: SessionRec, v': SessionRec, p: Permission)
    requires Move(sessions, e, id, v, v') && p in v'.granted && p !in v.granted
    ensures Grants(e, id) && p in v.requested
    ensures if e.Handover? then IsControl(p) else p in e.grant
  {
    WithoutControlKeeps(v.granted);
    WithControlAdds(v.granted, v.requested);
  }

  predicate Gains(sessions: map<Id, SessionRec>, sessions': map<Id, SessionRec>, id: Id, p: Permission) {
    && id in sessions' && p in sessions'[id].granted
    && (id in sessions ==> p !in sessions[id].granted)
  }

  /** The owner of the target acts, for a permission that was requested and that the owner names (mouse or
      keyboard in a handover), and no challenge is left under the nonce of the proof. */
  ghost predicate OwnerGives(st: State, e: Event, id: Id, p: Permission, st': State) {
    && OwnerActs(st, e, id) && p in st.sessions[id].requested && e.input.proof.nonce !in st'.challenges
    && (if e.input.HandControl? then p == Mouse || p == Keyboard else p in e.input.grant)
  }

  lemma OnlyOwnerEnlargesStep(w: World, e: Event, purge: bool, id: Id, p: Permission)
    requires Named(w) && Enabled(w, e) && Defined(w.st, e.input)
    ensures Gains(w.st.sessions, After(Plan(w.st, e, purge)), id, p) ==>
              OwnerGives(w.st, e, id, p, Plan(w.st, e, purge).base)
  {
    var o, x := Plan(w.st, e, purge), ContextOf(e);
    if Gains(w.st.sessions, After(o), id, p) {
      DrawsAreNew(w, e);
      PlanIsSound(w.st, e, purge);
      if id in w.st.sessions {
        MoveOf(w.st, o, x, id);
        GrowsByGrant(w.st.sessions, o.effect, id, w.st.sessions[id], After(o)[id], p);
        GrantingNeedsOwner(w.st, e, purge, id);
      } else {
        NewSession(w.st, o, x, id);
      }
    }
  }

  /** In any run: when a session comes to hold a permission it did not hold, the permission was
      requested, the owner of the target acted through the target device, and the challenge that
      the proof answered is gone. */
  lemma OnlyOwnerEnlarges(ws: seq<World>, es: seq<Event>, purge: bool, n: nat, id: Id, p: Permission)
    requires IsRun(ws, es, purge) && n < |es|
    ensures Gains(ws[n].st.sessions, ws[n + 1].st.sessions, id, p) ==>
              OwnerGives(ws[n].st, es[n], id, p, ws[n + 1].st)
  {
    RunNamed(ws, es, purge, n);
    OnlyOwnerEnlargesStep(ws[n], es[n], purge, id, p);
  }

  // ---------- a nonce is good once ----------

  /** The proof that a section checks, if it comes to that. */
  function Checked(st: State, e: Event): Option<Proof> {
    match e.input
    case RegisterDevice(_, p, name, _, os, kind, _) =>
      if ValidDevice(name, os, DefaultKind(kind)) then Some(p) else None
    case RequestSession(user, p, source, target, _, _) =>
      if Live(st, source, e.now) && st.devices[source].owner == user && Live(st, target, e.now) && source != target
      then Some(p) else None
    case Decide(user, p, id, _, _) => CheckedByTarget(st, user, p, id, e.now)
    case ChangePermissions(user, p, id, _) => CheckedByTarget(st, user, p, id, e.now)
    case HandControl(user, p, id) => CheckedByTarget(st, user, p, id, e.now)
    case _ => None
  }

  function CheckedByTarget(st: State, user: Id, p: Proof, id: Id, now: Time): Option<Proof> {
    if id in st.sessions && st.sessions[id].target in st.devices
       && st.devices[st.sessions[id].target].owner == user && Live(st, st.sessions[id].target, now)
    then Some(p) else None
  }

  /** Whether the check passes: a challenge of this user in time, and a signature over it. */
  predicate Passes(st: State, e: Event) {
    match e.input
    case RegisterDevice(user, p, _, key, _, _, _) => ProofOk(st, user, key, p, e.now)
    case RequestSession(user, p, source, _, _, _) =>
      source in st.devices && ProofOk(st, user, st.devices[source].key, p, e.now)
    case Decide(user, p, id, _, _) => PassesByTarget(st, user, p, id, e.now)
    case ChangePermissions(user, p, id, _) => PassesByTarget(st, user, p, id, e.now)
    case HandControl(user, p, id) => PassesByTarget(st, user, p, id, e.now)
    case _ => false
  }

  predicate PassesByTarget(st: State, user: Id, p: Proof, id: Id, now: Time) {
    && id in st.sessions && st.sessions[id].target in st.devices
    && ProofOk(st, user, st.devices[st.sessions[id].target].key, p, now)
  }

  predicate Gone(o: Outcome, nonce: string) {
    nonce !in o.base.challenges
  }

  lemma RegisterDeviceSpends(st: State, user: Id, p: Proof, name: string, key: string, os: string, kind: string,
                             id: Id, now: Time)
    requires ValidDevice(name, os, DefaultKind(kind))
    ensures Gone(PlanRegisterDevice(st, user, p, name, key, os, kind, id, now), p.nonce)
  {
    EnrolKeepsChallenges(Spend(st, p.nonce), user, name, key, os, DefaultKind(kind), id, now);
  }

  lemma EnrolKeepsChallenges(st: State, user: Id, name: string, key: string, os: string, kind: string, id: Id,
                             now: Time)
    ensures Enrol(st, user, name, key, os, kind, id, now).base.challenges == st.challenges
  {
    forall holder | HoldsKey(st.devices, holder, key)
      ensures Confirm(st, user, holder, name, os, kind, now).base.challenges == st.challenges
    {
    }
  }

  lemma RequestSpends(st: State, user: Id, p: Proof, source: Id, target: Id, grant: seq<Permission>, id: Id, now: Time)
    requires Live(st, source, now) && st.devices[source].owner == user && Live(st, target, now) && source != target
    ensures Gone(PlanRequest(st, user, p, source, target, grant, id, now), p.nonce)
  {
  }

  lemma GateSpends(st: State, user: Id, p: Proof, id: Id, now: Time)
    requires TargetsExist(st) && CheckedByTarget(st, user, p, id, now).Some?
    ensures p.nonce !in TargetGate(st, user, p, id, now).st.challenges
  {
  }

  lemma DecideSpends(st: State, user: Id, p: Proof, id: Id, approve: bool, grant: seq<Permission>, now: Time)
    requires TargetsExist(st) && CheckedByTarget(st, user, p, id, now).Some?
    ensures Gone(PlanDecide(st, user, p, id, approve, grant, now), p.nonce)
  {
    GateSpends(st, user, p, id, now);
  }

  lemma ChangeSpends(st: State, user: Id, p: Proof, id: Id, grant: seq<Permission>, now: Time)
    requires TargetsExist(st) && CheckedByTarget(st, user, p, id, now).Some?
    ensures Gone(PlanChange(st, user, p, id, grant, now), p.nonce)
  {
    GateSpends(st, user, p, id, now);
  }

  lemma HandoverSpends(st: State, user: Id, p: Proof, id: Id, now: Time)
    requires TargetsExist(st) && CheckedByTarget(st, user, p, id, now).Some?
    ensures Gone(PlanHandover(st, user, p, id, now), p.nonce)
  {
    GateSpends(st, user, p, id, now);
  }

  /** A proof that is checked, good or bad, uses its challenge up. */
  lemma CheckingSpends(st: State, e: Event, purge: bool)
    requires Defined(st, e.input) && Checked(st, e).Some?
    ensures Gone(Plan(st, e, purge), Checked(st, e).value.nonce)
  {
    match e.input
    case RegisterDevice(user, p, name, key, os, kind, id) =>
      RegisterDeviceSpends(st, user, p, name, key, os, kind, id, e.now);
    case RequestSession(user, p, source, target, grant, id) =>
      RequestSpends(st, user, p, source, target, grant, id, e.now);
    case Decide(user, p, id, approve, grant) => DecideSpends(st, user, p, id, approve, grant, e.now);
    case ChangePermissions(user, p, id, grant) => ChangeSpends(st, user, p, id, grant, e.now);
    case HandControl(user, p, id) => HandoverSpends(st, user, p, id, e.now);
  }

  predicate RefusedBySpending(st: State, o: Outcome, nonce: string) {
    o.base == Spend(st, nonce) && o.effect == Quiet && o.tail == [] && o.reply.Fail? && o.reply.code == 403
  }

  lemma RegisterDeviceRefuses(st: State, user: Id, p: Proof, name: string, key: string, os: string, kind: string,
                              id: Id, now: Time)
    requires ValidDevice(name, os, DefaultKind(kind)) && !ProofOk(st, user, key, p, now)
    ensures RefusedBySpending(st, PlanRegisterDevice(st, user, p, name, key, os, kind, id, now), p.nonce)
  {
  }

  lemma TargetRefuses(st: State, e: Event, purge: bool)
    requires e.input.Decide? || e.input.ChangePermissions? || e.input.HandControl?
    requires TargetsExist(st) && CheckedByTarget(st, e.input.user, e.input.proof, e.input.id, e.now).Some?
    requires !PassesByTarget(st, e.input.user, e.input.proof, e.input.id, e.now)
    ensures RefusedBySpending(st, Plan(st, e, purge), e.input.proof.nonce)
  {
    GateRefuses(st, e.input.user, e.input.proof, e.input.id, e.now);
  }

  lemma GateRefuses(st: State, user: Id, p: Proof, id: Id, now: Time)
    requires TargetsExist(st) && CheckedByTarget(st, user, p, id, now).Some? && !PassesByTarget(st, user, p, id, now)
    ensures TargetGate(st, user, p, id, now) == Stop(Spend(st, p.nonce), 403, TargetProofRequired)
  {
  }

  /** A check that does not pass is answered 403 and does nothing but use the challenge up. */
  lemma FailingIsRefused(st: State, e: Event, purge: bool)
    requires Defined(st, e.input) && Checked(st, e).Some? && !Passes(st, e)
    ensures RefusedBySpending(st, Plan(st, e, purge), Checked(st, e).value.nonce)
  {
    match e.input
    case RegisterDevice(user, p, name, key, os, kind, id) =>
      RegisterDeviceRefuses(st, user, p, name, key, os, kind, id, e.now);
    case RequestSession(_, _, _, _, _, _) =>
    case _ => TargetRefuses(st, e, purge);
  }

  lemma PassingKnowsNonce(st: State, e: Event)
    requires Checked(st, e).Some? && Passes(st, e)
    ensures Checked(st, e).value.nonce in st.challenges
  {
  }

  lemma SpentByCheck(ws: seq<World>, es: seq<Event>, purge: bool, i: nat, nonce: string)
    requires IsRun(ws, es, purge) && i < |es|
    requires Checked(ws[i].st, es[i]).Some? && Checked(ws[i].st, es[i]).value.nonce == nonce
    ensures nonce !in ws[i + 1].st.challenges
  {
    CheckingSpends(ws[i].st, es[i], purge);
  }

  /** In any run: a proof that passes its check leaves a nonce that no later check accepts. */
  lemma NonceIsGoodOnce(ws: seq<World>, es: seq<Event>, purge: bool, i: nat, j: nat, nonce: string)
    requires IsRun(ws, es, purge) && i < j < |es|
    requires Checked(ws[i].st, es[i]).Some? && Checked(ws[i].st, es[i]).value.nonce == nonce
    requires Checked(ws[j].st, es[j]).Some? && Checked(ws[j].st, es[j]).value.nonce == nonce
    requires Passes(ws[i].st, es[i])
    ensures !Passes(ws[j].st, es[j])
  {
    RunNamed(ws, es, purge, i);
    PassingKnowsNonce(ws[i].st, es[i]);
    SpentByCheck(ws, es, purge, i, nonce);
    StaysSpent(ws, es, purge, i, j, nonce);
    if Passes(ws[j].st, es[j]) {
      PassingKnowsNonce(ws[j].st, es[j]);
    }
  }

  lemma StaysSpent(ws: seq<World>, es: seq<Event>, purge: bool, i: nat, j: nat, nonce: string)
    requires IsRun(ws, es, purge) && i < j < |es|
    requires nonce in ws[i].issued && nonce !in ws[i + 1].st.challenges
    ensures nonce !in ws[j].st.challenges
  {
    RunFlows(ws, es, purge);
    Flowing(ws, es, i, i + 1);
    GoneForever(ws, es, i + 1, j, nonce);
  }

  /** And one that passes was asked for by the same user less than a minute before. */
  lemma PassingWasAskedFor(ws: seq<World>, es: seq<Event>, purge: bool, n: nat)
    requires IsRun(ws, es, purge) && n < |es| && Checked(ws[n].st, es[n]).Some? && Passes(ws[n].st, es[n])
    ensures exists k :: 0 <= k < n && es[k].now <= es[n].now < es[k].now + CHALLENGE_LIFETIME
                                   && es[k].input == NewChallenge(es[n].input.user, es[n].input.proof.nonce)
  {
    var nonce := es[n].input.proof.nonce;
    RunFlows(ws, es, purge);
    ChallengesAreAskedFor(ws, es, n, nonce);
    var c := ws[n].st.challenges[nonce];
    var k :| 0 <= k < n && es[k].input == NewChallenge(c.user, nonce) && c.expires == es[k].now + CHALLENGE_LIFETIME;
    Flowing(ws, es, k + 1, n);
  }
}
