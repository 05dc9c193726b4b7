/** What every section keeps true of sessions and devices, and how one session may change. */
module Invariants {
  import opened Types
  import opened Permissions
  import opened Model
  import opened Plans

  function After(o: Outcome): map<Id, SessionRec> {
    ApplyEffect(o.base.devices, o.base.sessions, o.effect)
  }

  // ---------- what becomes of one session ----------

  /** How an effect may carry the session stored under id from v to v'. */
  ghost predicate Move(sessions: map<Id, SessionRec>, e: Effect, id: Id, v: SessionRec, v': SessionRec) {
    || v' == v
    || (e.EndWhere? && Open(v) && Terminal(e.final) && v' == Finish(v, e.final))
    || (e.EndOne? && e.id == id && Open(v) && Terminal(e.final) && v' == Finish(v, e.final))
    || (e.Approve? && e.id == id && v.state == Pending && MayGive(sessions, id, v, e.grant) &&
        v' == Activate(v, e.grant, e.until))
    || (e.Regrant? && e.id == id && v.state == Active && MayGive(sessions, id, v, e.grant) && v' == Grant(v, e.grant))
    || (e.Handover? && e.id == id && v.state == Active && Controls(v.requested) && v' == TakeOver(v))
    || (e.Handover? && e.id != id && v.state == Active && v' == Yield(v))
  }

  ghost predicate MayGive(sessions: map<Id, SessionRec>, id: Id, v: SessionRec, grant: seq<Permission>) {
    ValidGrant(grant) && Within(grant, v.requested) && (Controls(grant) ==> !ControllerBusy(sessions, id))
  }

  lemma MoveOf(st: State, o: Outcome, x: Context, id: Id)
    requires Sound(st, o, x) && id in st.sessions
    requires forall y :: y in x.draws ==> y !in st.sessions
    ensures id in After(o) && Move(st.sessions, o.effect, id, st.sessions[id], After(o)[id])
  {
  }

  lemma NewSession(st: State, o: Outcome, x: Context, id: Id)
    requires Sound(st, o, x) && id in After(o) && id !in st.sessions
    ensures o.effect.Create? && o.effect.session.id == id && After(o)[id] == o.effect.session
    ensures Allowed(o.base, o.effect, x)
  {
  }

  // ---------- one session over time ----------

  predicate SameIdentity(v: SessionRec, v': SessionRec) {
    && v'.id == v.id && v'.operator == v.operator && v'.source == v.source && v'.target == v.target
    && v'.sourceKey == v.sourceKey && v'.targetKey == v.targetKey
    && v'.requested == v.requested && v'.created == v.created
  }

  /** The epoch only grows, names a snapshot of the whole record, and stops with the session. */
  predicate Evolved(v: SessionRec, v': SessionRec) {
    && SameIdentity(v, v')
    && v.epoch <= v'.epoch
    && (v.epoch == v'.epoch ==> v' == v)
    && (Terminal(v.state) ==> v' == v)
  }

  ghost predicate Evolves(sessions: map<Id, SessionRec>, sessions': map<Id, SessionRec>) {
    forall id :: id in sessions ==> id in sessions' && Evolved(sessions[id], sessions'[id])
  }

  lemma EffectEvolves(st: State, o: Outcome, x: Context)
    requires Sound(st, o, x)
    requires forall y :: y in x.draws ==> y !in st.sessions
    ensures Evolves(st.sessions, After(o))
  {
    forall id | id in st.sessions ensures id in After(o) && Evolved(st.sessions[id], After(o)[id]) {
      MoveOf(st, o, x, id);
    }
  }

  // ---------- grants ----------

  predicate WellGranted(v: SessionRec) {
    && ValidGrant(v.requested)
    && NoDuplicates(v.granted) && Within(v.granted, v.requested)
    && (if v.state == Active then View in v.granted else v.granted == [])
  }

  ghost predicate Grants(sessions: map<Id, SessionRec>) {
    forall id :: id in sessions ==> WellGranted(sessions[id])
  }

  lemma WellGrantedKept(sessions: map<Id, SessionRec>, e: Effect, id: Id, v: SessionRec, v': SessionRec)
    requires Move(sessions, e, id, v, v') && WellGranted(v)
    ensures WellGranted(v')
  {
    WithoutControlKeeps(v.granted);
    WithControlAdds(v.granted, v.requested);
  }

  lemma GrantsKept(st: State, o: Outcome, x: Context)
    requires Sound(st, o, x) && Grants(st.sessions)
    requires forall y :: y in x.draws ==> y !in st.sessions
    ensures Grants(After(o))
  {
    forall id | id in After(o) ensures WellGranted(After(o)[id]) {
      if id in st.sessions {
        MoveOf(st, o, x, id);
        WellGrantedKept(st.sessions, o.effect, id, st.sessions[id], After(o)[id]);
      } else {
        NewSession(st, o, x, id);
      }
    }
  }

  // ---------- exclusive control ----------

  predicate InControl(v: SessionRec) {
    v.state == Active && Controls(v.granted)
  }

  /** No target is controlled by two sessions. */
  ghost predicate Exclusive(sessions: map<Id, SessionRec>) {
    forall a, b ::
      (a in sessions && b in sessions && sessions[a].target == sessions[b].target &&
       InControl(sessions[a]) && InControl(sessions[b])) ==> a == b
  }

  /** A session comes into control only by a grant given while no other session of its target
      was in control, or by a handover. */
  lemma ComesIntoControl(sessions: map<Id, SessionRec>, e: Effect, id: Id, v: SessionRec, v': SessionRec)
    requires Move(sessions, e, id, v, v') && InControl(v') && !InControl(v)
    ensures e.Approve? || e.Regrant? || e.Handover?
    ensures e.id == id && (!e.Handover? ==> !ControllerBusy(sessions, id))
  {
    WithoutControlKeeps(v.granted);
  }

  lemma StaysInControl(sessions: map<Id, SessionRec>, e: Effect, id: Id, v: SessionRec, v': SessionRec)
    requires Move(sessions, e, id, v, v') && InControl(v') && InControl(v)
    requires e.Approve? || e.Regrant? || e.Handover?
    requires e.id != id
    ensures v' == v
  {
    WithoutControlKeeps(v.granted);
  }

  lemma ExclusiveKept(st: State, o: Outcome, x: Context)
    requires Sound(st, o, x) && Exclusive(st.sessions)
    requires forall y :: y in x.draws ==> y !in st.sessions
    ensures Exclusive(After(o))
  {
    forall a, b |
      a in After(o) && b in After(o) && After(o)[a].target == After(o)[b].target &&
      InControl(After(o)[a]) && InControl(After(o)[b])
      ensures a == b
    {
      InControlBefore(st, o, x, a);
      InControlBefore(st, o, x, b);
      if a != b && !InControl(st.sessions[a]) {
        OnlyController(st, o, x, a, b);
      } else if a != b && !InControl(st.sessions[b]) {
        OnlyController(st, o, x, b, a);
      }
    }
  }

  lemma InControlBefore(st: State, o: Outcome, x: Context, a: Id)
    requires Sound(st, o, x) && a in After(o) && InControl(After(o)[a])
    requires forall y :: y in x.draws ==> y !in st.sessions
    ensures a in st.sessions && Move(st.sessions, o.effect, a, st.sessions[a], After(o)[a])
    ensures st.sessions[a].target == After(o)[a].target
  {
    if a in st.sessions {
      MoveOf(st, o, x, a);
    } else {
      NewSession(st, o, x, a);
    }
  }

  /** When a comes into control, no other session of its target is in control afterwards. */
  lemma OnlyController(st: State, o: Outcome, x: Context, a: Id, b: Id)
    requires Sound(st, o, x) && a in st.sessions && b in st.sessions && a != b
    requires a in After(o) && Move(st.sessions, o.effect, a, st.sessions[a], After(o)[a])
    requires b in After(o) && Move(st.sessions, o.effect, b, st.sessions[b], After(o)[b])
    requires InControl(After(o)[a]) && !InControl(st.sessions[a])
    requires st.sessions[a].target == st.sessions[b].target
    ensures !InControl(After(o)[b])
  {
    ComesIntoControl(st.sessions, o.effect, a, st.sessions[a], After(o)[a]);
    if InControl(After(o)[b]) {
      if !InControl(st.sessions[b]) {
        ComesIntoControl(st.sessions, o.effect, b, st.sessions[b], After(o)[b]);
      } else {
        StaysInControl(st.sessions, o.effect, b, st.sessions[b], After(o)[b]);
        assert st.sessions[a].state == Active || o.effect.Approve?;
        assert b in st.sessions && YieldsTo(st.sessions, b, a);
      }
    }
  }

  /** After a handover the session handed to is the one controller of its target. */
  lemma HandoverTakesControl(st: State, o: Outcome, x: Context, a: Id)
    requires Sound(st, o, x) && o.effect.Handover?
    requires a in After(o) && After(o)[a].target == After(o)[o.effect.id].target
    ensures InControl(After(o)[a]) <==> a == o.effect.id
  {
    var id := o.effect.id;
    WithControlAdds(st.sessions[id].granted, st.sessions[id].requested);
    WithoutControlKeeps(st.sessions[a].granted);
  }

  // ---------- quotas ----------

  ghost predicate OnePerTarget(sessions: map<Id, SessionRec>) {
    forall a, b ::
      (a in sessions && b in sessions && Open(sessions[a]) && Open(sessions[b]) &&
       sessions[a].operator == sessions[b].operator && sessions[a].target == sessions[b].target) ==> a == b
  }

  ghost predicate WithinQuota(sessions: map<Id, SessionRec>) {
    forall user: Id {:trigger OpenOf(sessions, user)} :: |OpenOf(sessions, user)| <= MAX_OPEN_SESSIONS
  }

  lemma OpenBefore(st: State, o: Outcome, x: Context, id: Id)
    requires Sound(st, o, x) && id in After(o) && Open(After(o)[id])
    requires forall y :: y in x.draws ==> y !in st.sessions
    ensures id !in st.sessions ==> o.effect.Create? && o.effect.session.id == id && After(o)[id] == o.effect.session
    ensures id in st.sessions ==> Open(st.sessions[id]) && SameIdentity(st.sessions[id], After(o)[id])
  {
    if id in st.sessions {
      MoveOf(st, o, x, id);
    } else {
      NewSession(st, o, x, id);
    }
  }

  lemma WithinQuotaKept(st: State, o: Outcome, x: Context)
    requires Sound(st, o, x) && WithinQuota(st.sessions)
    requires forall y :: y in x.draws ==> y !in st.sessions
    ensures WithinQuota(After(o))
  {
    forall user: Id ensures |OpenOf(After(o), user)| <= MAX_OPEN_SESSIONS {
      var was, now' := OpenOf(st.sessions, user), OpenOf(After(o), user);
      forall id | id in now' ensures id in was || (o.effect.Create? && o.effect.session.id == id) {
        OpenBefore(st, o, x, id);
      }
      if o.effect.Create? && o.effect.session.operator == user {
        SubsetSize(now', was + {o.effect.session.id});
      } else {
        SubsetSize(now', was);
      }
    }
  }

  lemma OnePerTargetKept(st: State, o: Outcome, x: Context)
    requires Sound(st, o, x) && OnePerTarget(st.sessions)
    requires forall y :: y in x.draws ==> y !in st.sessions
    ensures OnePerTarget(After(o))
  {
    forall a, b |
      a in After(o) && b in After(o) && Open(After(o)[a]) && Open(After(o)[b]) &&
      After(o)[a].operator == After(o)[b].operator && After(o)[a].target == After(o)[b].target
      ensures a == b
    {
      OpenBefore(st, o, x, a);
      OpenBefore(st, o, x, b);
      if a !in st.sessions && b in st.sessions {
        NoOpenDuplicate(st, o, x, b);
      } else if b !in st.sessions && a in st.sessions {
        NoOpenDuplicate(st, o, x, a);
      }
    }
  }

  lemma NoOpenDuplicate(st: State, o: Outcome, x: Context, b: Id)
    requires Sound(st, o, x) && o.effect.Create? && b in st.sessions && Open(st.sessions[b])
    ensures !(st.sessions[b].operator == o.effect.session.operator && st.sessions[b].target == o.effect.session.target)
  {
    var v := o.effect.session;
    assert b in OpenOf(st.sessions, v.operator) <==> st.sessions[b].operator == v.operator;
  }

  // ---------- devices behind sessions ----------

  ghost predicate Referential(devices: map<Id, DeviceRec>, sessions: map<Id, SessionRec>) {
    forall id :: id in sessions ==>
      && sessions[id].target in devices
      && (Open(sessions[id]) ==> Backed(devices, sessions[id]))
  }

  lemma BackedKept(st: State, o: Outcome, x: Context, v: SessionRec)
    requires Sound(st, o, x) && Backed(st.devices, v)
    requires !(o.effect.EndWhere? && (o.effect.which == OnDevice(v.source) || o.effect.which == OnDevice(v.target)))
    ensures Backed(o.base.devices, v)
  {
  }

  lemma ReferentialKept(st: State, o: Outcome, x: Context)
    requires Sound(st, o, x) && Referential(st.devices, st.sessions)
    requires forall y :: y in x.draws ==> y !in st.sessions
    ensures Referential(o.base.devices, After(o))
  {
    forall id | id in After(o)
      ensures After(o)[id].target in o.base.devices && (Open(After(o)[id]) ==> Backed(o.base.devices, After(o)[id]))
    {
      if id in st.sessions {
        MoveOf(st, o, x, id);
        if Open(After(o)[id]) {
          OpenBefore(st, o, x, id);
          NotOnRevoked(st, o, x, id);
          BackedKept(st, o, x, st.sessions[id]);
        }
      } else {
        NewSession(st, o, x, id);
      }
    }
  }

  lemma NotOnRevoked(st: State, o: Outcome, x: Context, id: Id)
    requires Sound(st, o, x) && id in st.sessions && id in After(o) && Open(After(o)[id]) && Open(st.sessions[id])
    ensures var v := st.sessions[id];
            !(o.effect.EndWhere? && (o.effect.which == OnDevice(v.source) || o.effect.which == OnDevice(v.target)))
  {
  }

  ghost predicate Registry(devices: map<Id, DeviceRec>) {
    && UniqueKeys(devices)
    && forall owner: Id {:trigger ActiveDevices(devices, owner)} :: |ActiveDevices(devices, owner)| <= MAX_DEVICES
  }

  lemma RegistryKept(st: State, o: Outcome, x: Context)
    requires Sound(st, o, x) && Registry(st.devices)
    ensures Registry(o.base.devices)
  {
    var devices, devices' := st.devices, o.base.devices;
    forall owner: Id ensures |ActiveDevices(devices', owner)| <= MAX_DEVICES {
      if id :| id in ActiveDevices(devices', owner) && id !in devices {
        SubsetSize(ActiveDevices(devices', owner), ActiveDevices(devices, owner) + {id});
      } else {
        SubsetSize(ActiveDevices(devices', owner), ActiveDevices(devices, owner));
      }
    }
  }

  ghost predicate Keyed(devices: map<Id, DeviceRec>, sessions: map<Id, SessionRec>) {
    && (forall id :: id in sessions ==> sessions[id].id == id)
    && (forall id :: id in devices ==> devices[id].id == id)
  }

  lemma KeyedKept(st: State, o: Outcome, x: Context)
    requires Sound(st, o, x) && Keyed(st.devices, st.sessions)
    ensures Keyed(o.base.devices, After(o))
  {
  }
}
