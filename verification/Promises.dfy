/** What the service promises about sessions at every moment of every run. */
module Promises {
  import opened Types
  import opened Permissions
  import opened Model
  import opened Runs
  import opened Plans
  import opened Invariants
  import opened History
  import opened Worlds
  import opened Flow

  lemma RunSessionsSound(ws: seq<World>, es: seq<Event>, purge: bool, n: nat)
    requires IsRun(ws, es, purge) && n <= |es|
    ensures SessionsSound(ws[n].st)
  {
    RunSound(ws, es, purge, n);
  }

  /** After any run, whatever comes next, the lookups of accounts, devices and sessions that the code
      makes unchecked succeed, those of `invalidate` among the peers apart (see Crashes), so the run
      goes on with it. */
  lemma NeverStuck(ws: seq<World>, es: seq<Event>, purge: bool, e: Event)
    requires IsRun(ws, es, purge) && Enabled(ws[|es|], e)
    ensures Defined(ws[|es|].st, e.input) && IsRun(ws + [Step(ws[|es|], e, purge)], es + [e], purge)
  {
    RunSound(ws, es, purge, |es|);
    LookupsSucceed(ws[|es|], e);
    ExtendsRun(ws, es, e, purge);
  }

  // ---------- the audit trail ----------

  /** How often control was handed past the session while it was active. */
  ghost function TimesPassed(h: seq<Audit>, targets: map<Id, Id>, id: Id): nat {
    if h == [] then 0
    else
      var front := h[..|h| - 1];
      TimesPassed(front, targets, id) +
      if HandedPast(targets, h[|h| - 1], id) && Fold(Kinds(front, id)) == In(Active) then 1 else 0
  }

  lemma {:induction false} EpochIsCount(h: seq<Audit>, targets: map<Id, Id>, id: Id)
    ensures Replay(h, targets, id).epoch == |Kinds(h, id)| + TimesPassed(h, targets, id)
  {
    if h != [] {
      EpochIsCount(h[..|h| - 1], targets, id);
      FoldIsPhase(h[..|h| - 1], targets, id);
    }
  }

  /** The events of a session form a prefix of requested (end | approved change* end), the last one
      fixes its state, and its epoch is their number plus the handovers past it. */
  lemma AuditDeterminesSession(ws: seq<World>, es: seq<Event>, purge: bool, n: nat, id: Id)
    requires IsRun(ws, es, purge) && n <= |es| && id in ws[n].st.sessions
    ensures var st := ws[n].st; var ks := Kinds(st.history, id);
            && ks != [] && WellShaped(ks) && st.sessions[id].state == LastState(ks)
            && st.sessions[id].epoch == |ks| + TimesPassed(st.history, Targets(st.sessions), id)
  {
    RunSessionsSound(ws, es, purge, n);
    TrailTells(ws[n].st.sessions, ws[n].st.history, id);
  }

  lemma TrailTells(sessions: map<Id, SessionRec>, h: seq<Audit>, id: Id)
    requires Determined(sessions, h) && id in sessions
    ensures var ks := Kinds(h, id);
            && ks != [] && WellShaped(ks) && sessions[id].state == LastState(ks)
            && sessions[id].epoch == |ks| + TimesPassed(h, Targets(sessions), id)
  {
    FoldIsPhase(h, Targets(sessions), id);
    FoldIsLanguage(Kinds(h, id));
    EpochIsCount(h, Targets(sessions), id);
  }

  /** And no session event is about anything else. */
  lemma TrailIsAboutSessions(ws: seq<World>, es: seq<Event>, purge: bool, n: nat, id: Id)
    requires IsRun(ws, es, purge) && n <= |es| && id !in ws[n].st.sessions
    ensures Kinds(ws[n].st.history, id) == []
  {
    RunSessionsSound(ws, es, purge, n);
    NoKinds(ws[n].st.sessions, ws[n].st.history, id);
  }

  lemma {:induction false} NoKinds(sessions: map<Id, SessionRec>, h: seq<Audit>, id: Id)
    requires forall i :: 0 <= i < |h| && h[i].action.SessionEvent? ==> h[i].resource in sessions
    requires id !in sessions
    ensures Kinds(h, id) == []
  {
    if h != [] {
      NoKinds(sessions, h[..|h| - 1], id);
    }
  }

  // ---------- control, quotas, grants, devices ----------

  /** Two sessions in control of one target are one session. */
  lemma ControlIsExclusive(ws: seq<World>, es: seq<Event>, purge: bool, n: nat, a: Id, b: Id)
    requires IsRun(ws, es, purge) && n <= |es| && a in ws[n].st.sessions && b in ws[n].st.sessions
    requires ws[n].st.sessions[a].target == ws[n].st.sessions[b].target
    requires InControl(ws[n].st.sessions[a]) && InControl(ws[n].st.sessions[b])
    ensures a == b
  {
    RunSessionsSound(ws, es, purge, n);
  }

  /** An operator's open sessions are at most ten, and no two are to one target. */
  lemma QuotasHold(ws: seq<World>, es: seq<Event>, purge: bool, n: nat, user: Id)
    requires IsRun(ws, es, purge) && n <= |es|
    ensures var mine := OpenOf(ws[n].st.sessions, user);
            && |mine| <= MAX_OPEN_SESSIONS
            && forall a, b ::
                 (a in mine && b in mine &&
                  ws[n].st.sessions[a].target == ws[n].st.sessions[b].target) ==> a == b
  {
    RunSessionsSound(ws, es, purge, n);
  }

  /** A session's grant has no duplicates and nothing that was not requested; it holds `view` while
      the session is active and nothing otherwise. */
  lemma GrantIsWithinRequest(ws: seq<World>, es: seq<Event>, purge: bool, n: nat, id: Id)
    requires IsRun(ws, es, purge) && n <= |es| && id in ws[n].st.sessions
    ensures var v := ws[n].st.sessions[id];
            && NoDuplicates(v.granted) && Within(v.granted, v.requested)
            && (v.state == Active <==> View in v.granted) && (v.state != Active ==> v.granted == [])
  {
    RunSessionsSound(ws, es, purge, n);
  }

  /** The target of every session is registered; an open one joins two different unrevoked devices,
      the source its operator's own, and carries their current keys. */
  lemma DevicesBehindSessions(ws: seq<World>, es: seq<Event>, purge: bool, n: nat, id: Id)
    requires IsRun(ws, es, purge) && n <= |es| && id in ws[n].st.sessions
    ensures ws[n].st.sessions[id].target in ws[n].st.devices
    ensures Open(ws[n].st.sessions[id]) ==> Backed(ws[n].st.devices, ws[n].st.sessions[id])
  {
    RunSessionsSound(ws, es, purge, n);
  }

  /** No two devices share a key text, and an owner has at most a hundred unrevoked ones. */
  lemma RegistryIsSound(ws: seq<World>, es: seq<Event>, purge: bool, n: nat, user: Id)
    requires IsRun(ws, es, purge) && n <= |es|
    ensures UniqueKeys(ws[n].st.devices) && |ActiveDevices(ws[n].st.devices, user)| <= MAX_DEVICES
  {
    RunSessionsSound(ws, es, purge, n);
  }

  lemma TakenKeyIsRefused(st: State, user: Id, p: Proof, name: string, key: string, os: string, kind: string,
                          id: Id, now: Time, holder: Id)
    requires UniqueKeys(st.devices) && HoldsKey(st.devices, holder, key)
    requires st.devices[holder].revoked || st.devices[holder].owner != user
    ensures PlanRegisterDevice(st, user, p, name, key, os, kind, id, now).reply.Fail?
    ensures PlanRegisterDevice(st, user, p, name, key, os, kind, id, now).base.devices == st.devices
  {
    assert Spend(st, p.nonce).devices == st.devices;
    forall h | HoldsKey(st.devices, h, key) ensures h == holder {
    }
  }

  /** In any run: a key text once revoked, or held by another owner, is never registered afterwards. */
  lemma RevokedKeyStaysOut(ws: seq<World>, es: seq<Event>, purge: bool, i: nat, j: nat, holder: Id)
    requires IsRun(ws, es, purge) && i <= j < |es| && holder in ws[i].st.devices
    requires es[j].input.RegisterDevice? && es[j].input.key == ws[i].st.devices[holder].key
    requires ws[i].st.devices[holder].revoked || ws[i].st.devices[holder].owner != es[j].input.user
    ensures Reply(ws[j], es[j], purge).Fail? && ws[j + 1].st.devices == ws[j].st.devices
  {
    RegistryOnlyGrows(ws, es, purge, i, j, holder);
    RegistryIsSound(ws, es, purge, j, holder);
    match es[j].input
    case RegisterDevice(user, p, name, key, os, kind, id) =>
      TakenKeyIsRefused(ws[j].st, user, p, name, key, os, kind, id, es[j].now, holder);
  }

  /** A stored device with this key text that the user cannot have. */
  predicate Bars(st: State, holder: Id, user: Id, key: string) {
    HoldsKey(st.devices, holder, key) && (st.devices[holder].revoked || st.devices[holder].owner != user)
  }

  predicate IsBarred(r: Response) {
    r == Fail(409, IdentityTaken) || r == Fail(403, IdentityRevoked)
  }

  /** A registration that is well-formed and proves possession of its key. */
  predicate Registers(st: State, e: Event) {
    && e.input.RegisterDevice?
    && ValidDevice(e.input.name, e.input.os, DefaultKind(e.input.kind))
    && ProofOk(st, e.input.user, e.input.key, e.input.proof, e.now)
  }

  lemma BarredNow(st: State, e: Event, purge: bool)
    requires UniqueKeys(st.devices) && Registers(st, e)
    ensures IsBarred(Plan(st, e, purge).reply) <==> exists h :: Bars(st, h, e.input.user, e.input.key)
  {
    var user, key, st' := e.input.user, e.input.key, Spend(st, e.input.proof.nonce);
    assert st'.devices == st.devices;
    if holder :| HoldsKey(st.devices, holder, key) {
      assert forall h :: HoldsKey(st'.devices, h, key) ==> h == holder;
      assert Bars(st, holder, user, key) <==> exists h :: Bars(st, h, user, key);
    } else {
      assert forall h :: Bars(st, h, user, key) ==> HoldsKey(st.devices, h, key);
    }
  }

  lemma BarsForGood(ws: seq<World>, es: seq<Event>, purge: bool, i: nat, j: nat, holder: Id, user: Id, key: string)
    requires IsRun(ws, es, purge) && i <= j <= |es| && Bars(ws[i].st, holder, user, key)
    ensures Bars(ws[j].st, holder, user, key)
  {
    RegistryOnlyGrows(ws, es, purge, i, j, holder);
  }

  /** In any run a registration that proves possession of its key is refused for its key exactly if
      this text was stored, then or before, for a device revoked or another owner's. Texts count and
      not keys: another text for the same key is not refused. */
  lemma BarredIffTextWasStored(ws: seq<World>, es: seq<Event>, purge: bool, j: nat)
    requires IsRun(ws, es, purge) && j < |es| && Registers(ws[j].st, es[j])
    ensures IsBarred(Reply(ws[j], es[j], purge)) <==>
            exists i: nat, h :: i <= j && Bars(ws[i].st, h, es[j].input.user, es[j].input.key)
  {
    var user, key := es[j].input.user, es[j].input.key;
    RegistryIsSound(ws, es, purge, j, user);
    BarredNow(ws[j].st, es[j], purge);
    if i: nat, h :| i <= j && Bars(ws[i].st, h, user, key) {
      BarsForGood(ws, es, purge, i, j, h, user, key);
    }
  }

  /** The answer of a handover that goes through. */
  lemma HandoverPasses(st: State, user: Id, p: Proof, id: Id, now: Time)
    requires TargetsExist(st) && PlanHandover(st, user, p, id, now).reply.SessionOut?
    ensures PlanHandover(st, user, p, id, now).effect == Handover(id, user)
    ensures id in st.sessions
  {
  }

  /** The section is a handover to the session, and is answered with it. */
  ghost predicate HandsTo(w: World, e: Event, purge: bool, id: Id) {
    e.input.HandControl? && e.input.id == id && Defined(w.st, e.input) && Reply(w, e, purge).SessionOut?
  }

  lemma HandoverStep(w: World, e: Event, purge: bool, id: Id, a: Id)
    requires HandsTo(w, e, purge, id)
    requires a in After(Plan(w.st, e, purge)) && id in After(Plan(w.st, e, purge))
    requires After(Plan(w.st, e, purge))[a].target == After(Plan(w.st, e, purge))[id].target
    ensures InControl(After(Plan(w.st, e, purge))[a]) <==> a == id
  {
    var i := e.input;
    HandoverPasses(w.st, i.user, i.proof, i.id, e.now);
    HandoverIsSound(w.st, i.user, i.proof, i.id, ContextOf(e));
    HandoverTakesControl(w.st, Plan(w.st, e, purge), ContextOf(e), a);
  }

  /** In any run: after a handover that is answered with the session, that session is in control of
      its target and no other is. */
  lemma HandoverIsExact(ws: seq<World>, es: seq<Event>, purge: bool, n: nat, id: Id, a: Id)
    requires IsRun(ws, es, purge) && n < |es| && HandsTo(ws[n], es[n], purge, id)
    requires id in ws[n + 1].st.sessions && a in ws[n + 1].st.sessions
    requires ws[n + 1].st.sessions[a].target == ws[n + 1].st.sessions[id].target
    ensures InControl(ws[n + 1].st.sessions[a]) <==> a == id
  {
    HandoverStep(ws[n], es[n], purge, id, a);
  }
}
