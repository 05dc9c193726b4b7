/** The audit history of a session determines its state, and its epoch counts the events. */
module History {
  import opened Types
  import opened Model
  import opened Frames
  import opened Plans
  import opened Invariants

  /** Where the events of one session have led. */
  datatype Phase = Absent | In(state: SessionState) | Broken

  function Next(p: Phase, k: SessionKind): Phase {
    if p == Absent && k == Requested then In(Pending)
    else if p == In(Pending) && k == Approved then In(Active)
    else if p == In(Pending) && k.Ended? && Terminal(k.state) then In(k.state)
    else if p == In(Active) && (k == PermissionsChanged || k == ControlHandover) then p
    else if p == In(Active) && k.Ended? && Terminal(k.state) && k.state != Rejected then In(k.state)
    else Broken
  }

  datatype Trace = Trace(phase: Phase, epoch: nat)

  predicate OwnEvent(e: Audit, id: Id) {
    e.action.SessionEvent? && e.resource == id
  }

  /** Control was handed to another session of the same target. */
  predicate HandedPast(targets: map<Id, Id>, e: Audit, id: Id) {
    && e.action == SessionEvent(ControlHandover) && e.resource != id
    && e.resource in targets && id in targets && targets[e.resource] == targets[id]
  }

  function Read(t: Trace, targets: map<Id, Id>, e: Audit, id: Id): Trace {
    if OwnEvent(e, id) then Trace(Next(t.phase, e.action.kind), t.epoch + 1)
    else if HandedPast(targets, e, id) && t.phase == In(Active) then t.(epoch := t.epoch + 1)
    else t
  }

  /** The session's phase and epoch, computed from the history alone (and who shares a target). */
  function Replay(h: seq<Audit>, targets: map<Id, Id>, id: Id): Trace {
    if h == [] then Trace(Absent, 0)
    else Read(Replay(h[..|h| - 1], targets, id), targets, h[|h| - 1], id)
  }

  function Targets(sessions: map<Id, SessionRec>): map<Id, Id> {
    map id | id in sessions :: sessions[id].target
  }

  /** The history tells every session's state and epoch, and mentions no other session. */
  ghost predicate Determined(sessions: map<Id, SessionRec>, h: seq<Audit>) {
    && (forall id :: id in sessions ==>
          Replay(h, Targets(sessions), id) == Trace(In(sessions[id].state), sessions[id].epoch))
    && (forall i :: 0 <= i < |h| && h[i].action.SessionEvent? ==> h[i].resource in sessions)
  }

  // ---------- reading longer histories ----------

  lemma ReplayOne(h: seq<Audit>, e: Audit, targets: map<Id, Id>, id: Id)
    ensures Replay(h + [e], targets, id) == Read(Replay(h, targets, id), targets, e, id)
  {
    assert (h + [e])[..|h|] == h;
  }

  /** Events that are not of sessions are not read. */
  lemma {:induction false} ReplaySkips(h: seq<Audit>, tail: seq<Audit>, targets: map<Id, Id>, id: Id)
    requires NoSessionEvents(tail)
    ensures Replay(h + tail, targets, id) == Replay(h, targets, id)
  {
    if tail == [] {
      assert h + tail == h;
    } else {
      var front, last := tail[..|tail| - 1], tail[|tail| - 1];
      assert h + tail == (h + front) + [last];
      ReplaySkips(h, front, targets, id);
      ReplayOne(h + front, last, targets, id);
    }
  }

  /** Sessions added later do not change how earlier events read. */
  lemma {:induction false} ReplayGrows(h: seq<Audit>, targets: map<Id, Id>, targets': map<Id, Id>, id: Id)
    requires forall i :: 0 <= i < |h| && h[i].action.SessionEvent? ==> h[i].resource in targets
    requires id in targets && forall k :: k in targets ==> k in targets' && targets'[k] == targets[k]
    ensures Replay(h, targets', id) == Replay(h, targets, id)
  {
    if h != [] {
      ReplayGrows(h[..|h| - 1], targets, targets', id);
    }
  }

  lemma {:induction false} ReplayAbsent(h: seq<Audit>, targets: map<Id, Id>, id: Id)
    requires forall i :: 0 <= i < |h| ==> !OwnEvent(h[i], id)
    ensures Replay(h, targets, id) == Trace(Absent, 0)
  {
    if h != [] {
      ReplayAbsent(h[..|h| - 1], targets, id);
    }
  }

  lemma ReplayEnd(h: seq<Audit>, some: seq<Audit>, e: Audit, targets: map<Id, Id>, id: Id)
    requires e.action.SessionEvent? && e.action.kind.Ended?
    ensures var t := Replay(h + some, targets, id);
            Replay(h + (some + [e]), targets, id) ==
            if e.resource == id then Trace(Next(t.phase, e.action.kind), t.epoch + 1) else t
  {
    assert h + (some + [e]) == (h + some) + [e];
    ReplayOne(h + some, e, targets, id);
  }

  /** The end events of one loop touch exactly the sessions it hits, once each. */
  lemma {:induction false} ReplayEnds(h: seq<Audit>, devices: map<Id, DeviceRec>, sessions: map<Id, SessionRec>,
                                      which: Which, final: SessionState, actor: Id, order: seq<Id>, now: Time,
                                      targets: map<Id, Id>, id: Id)
    requires forall i, j :: 0 <= i < j < |order| ==> order[i] != order[j]
    ensures var t := Replay(h, targets, id);
            Replay(h + EndEvents(devices, sessions, which, final, actor, order, now), targets, id) ==
            if id in order && id in sessions && Hit(devices, which, sessions[id])
            then Trace(Next(t.phase, Ended(final)), t.epoch + 1) else t
  {
    if order == [] {
      assert h + [] == h;
    } else {
      var front, last := order[..|order| - 1], order[|order| - 1];
      var some := EndEvents(devices, sessions, which, final, actor, front, now);
      ReplayEnds(h, devices, sessions, which, final, actor, front, now, targets, id);
      assert id in order <==> id in front || id == last by {
        assert order == front + [last];
      }
      if last in sessions && Hit(devices, which, sessions[last]) {
        ReplayEnd(h, some, Audit(actor, SessionEvent(Ended(final)), last, now), targets, id);
      } else {
        assert some + [] == some;
      }
    }
  }

  lemma {:induction false} EndEventsNameSessions(devices: map<Id, DeviceRec>, sessions: map<Id, SessionRec>,
                                which: Which, final: SessionState, actor: Id, order: seq<Id>, now: Time)
    ensures forall e :: e in EndEvents(devices, sessions, which, final, actor, order, now) ==>
              e.action.SessionEvent? && e.resource in sessions
  {
    if order != [] {
      EndEventsNameSessions(devices, sessions, which, final, actor, order[..|order| - 1], now);
    }
  }

  // ---------- one section ----------

  function NewEvents(o: Outcome, now: Time): seq<Audit> {
    Events(o.base.devices, o.base.sessions, o.effect, now)
  }

  /** Reading the event of one effect takes a session from its old state and epoch to its new ones. */
  lemma ReadFollows(sessions: map<Id, SessionRec>, e: Effect, id: Id, v: SessionRec, v': SessionRec,
                    event: Audit, targets: map<Id, Id>)
    requires Move(sessions, e, id, v, v') && !e.EndWhere? && !e.Quiet?
    requires event.action.SessionEvent?
    requires e.Create? ==> event.action.kind == Requested && event.resource != id && v' == v
    requires e.EndOne? ==> event.action.kind == Ended(e.final) && event.resource == e.id
    requires e.EndOne? && e.id == id && e.final == Rejected ==> v.state == Pending
    requires e.Approve? ==> event.action.kind == Approved && event.resource == e.id
    requires e.Regrant? ==> event.action.kind == PermissionsChanged && event.resource == e.id
    requires e.Handover? ==> event.action.kind == ControlHandover && event.resource == e.id
    requires !e.Create? && e.id == id ==> v' != v
    requires e.Handover? && e.id != id ==> (v' != v <==> v.state == Active && HandedPast(targets, event, id))
    ensures Read(Trace(In(v.state), v.epoch), targets, event, id) == Trace(In(v'.state), v'.epoch)
  {
  }

  lemma EventsFollowEffect(st: State, o: Outcome, x: Context, h: seq<Audit>, targets: map<Id, Id>, id: Id)
    requires Sound(st, o, x) && id in st.sessions && !o.effect.EndWhere?
    requires forall y :: y in x.draws ==> y !in st.sessions
    requires forall k :: k in st.sessions ==> k in targets && targets[k] == st.sessions[k].target
    requires Replay(h, targets, id) == Trace(In(st.sessions[id].state), st.sessions[id].epoch)
    ensures Replay(h + NewEvents(o, x.now), targets, id) == Trace(In(After(o)[id].state), After(o)[id].epoch)
  {
    var events := NewEvents(o, x.now);
    if events == [] {
      assert h + events == h;
    } else {
      ReplayOne(h, events[0], targets, id);
      MoveOf(st, o, x, id);
      ReadFollows(st.sessions, o.effect, id, st.sessions[id], After(o)[id], events[0], targets);
    }
  }

  lemma EndingFollowsEffect(st: State, o: Outcome, x: Context, h: seq<Audit>, targets: map<Id, Id>, id: Id)
    requires Sound(st, o, x) && id in st.sessions && o.effect.EndWhere?
    requires Replay(h, targets, id) == Trace(In(st.sessions[id].state), st.sessions[id].epoch)
    ensures Replay(h + NewEvents(o, x.now), targets, id) == Trace(In(After(o)[id].state), After(o)[id].epoch)
  {
    var e := o.effect;
    ReplayEnds(h, o.base.devices, st.sessions, e.which, e.final, e.actor, e.order, x.now, targets, id);
  }

  lemma CreationIsRead(st: State, o: Outcome, x: Context, targets: map<Id, Id>)
    requires Sound(st, o, x) && o.effect.Create? && o.effect.session.id !in st.sessions
    requires forall i :: 0 <= i < |st.history| && st.history[i].action.SessionEvent? ==>
               st.history[i].resource in st.sessions
    ensures Replay(st.history + NewEvents(o, x.now), targets, o.effect.session.id) == Trace(In(Pending), 1)
  {
    ReplayAbsent(st.history, targets, o.effect.session.id);
    ReplayOne(st.history, NewEvents(o, x.now)[0], targets, o.effect.session.id);
  }

  lemma NewEventsNameSessions(st: State, o: Outcome, x: Context)
    requires Sound(st, o, x)
    ensures forall e :: e in NewEvents(o, x.now) ==> e.action.SessionEvent? && e.resource in After(o)
  {
    if o.effect.EndWhere? {
      var e := o.effect;
      EndEventsNameSessions(o.base.devices, o.base.sessions, e.which, e.final, e.actor, e.order, x.now);
    }
  }

  lemma TargetsKept(st: State, o: Outcome, x: Context)
    requires Sound(st, o, x)
    requires forall y :: y in x.draws ==> y !in st.sessions
    ensures forall k :: k in Targets(st.sessions) ==>
              k in Targets(After(o)) && Targets(After(o))[k] == Targets(st.sessions)[k]
  {
    forall k | k in st.sessions ensures k in After(o) && After(o)[k].target == st.sessions[k].target {
      MoveOf(st, o, x, k);
    }
  }

  lemma DeterminedOne(st: State, o: Outcome, x: Context, id: Id)
    requires Sound(st, o, x) && Determined(st.sessions, st.history)
    requires forall y :: y in x.draws ==> y !in st.sessions
    requires id in After(o)
    ensures Replay(Commit(o, x.now).history, Targets(After(o)), id) ==
            Trace(In(After(o)[id].state), After(o)[id].epoch)
  {
    var targets, targets' := Targets(st.sessions), Targets(After(o));
    TargetsKept(st, o, x);
    ReplaySkips(st.history + NewEvents(o, x.now), o.tail, targets', id);
    if id in st.sessions {
      ReplayGrows(st.history, targets, targets', id);
      if o.effect.EndWhere? {
        EndingFollowsEffect(st, o, x, st.history, targets', id);
      } else {
        EventsFollowEffect(st, o, x, st.history, targets', id);
      }
    } else {
      NewSession(st, o, x, id);
      CreationIsRead(st, o, x, targets');
    }
  }

  lemma DeterminedKept(st: State, o: Outcome, x: Context)
    requires Sound(st, o, x) && Determined(st.sessions, st.history)
    requires forall y :: y in x.draws ==> y !in st.sessions
    ensures Determined(After(o), Commit(o, x.now).history)
  {
    var h, some := st.history, NewEvents(o, x.now);
    var h' := Commit(o, x.now).history;
    assert h' == h + some + o.tail;
    forall id | id in After(o)
      ensures Replay(h', Targets(After(o)), id) == Trace(In(After(o)[id].state), After(o)[id].epoch)
    {
      DeterminedOne(st, o, x, id);
    }
    NewEventsNameSessions(st, o, x);
    EffectEvolves(st, o, x);
    forall i | 0 <= i < |h'| && h'[i].action.SessionEvent? ensures h'[i].resource in After(o) {
      if i < |h| {
        assert h'[i] == h[i];
      } else if i < |h + some| {
        assert h'[i] == some[i - |h|] && some[i - |h|] in some;
      }
    }
  }

  // ---------- the language of traces ----------

  /** The kinds of one session's own events, oldest first. */
  function Kinds(h: seq<Audit>, id: Id): seq<SessionKind> {
    if h == [] then []
    else
      var e := h[|h| - 1];
      Kinds(h[..|h| - 1], id) + if OwnEvent(e, id) then [e.action.kind] else []
  }

  /** A prefix of: requested, then an end; or requested, approved, any number of changes and
      handovers, and an end that is not a rejection. */
  predicate WellShaped(ks: seq<SessionKind>) {
    || ks == []
    || ks == [Requested]
    || (|ks| == 2 && ks[0] == Requested && ks[1].Ended? && Terminal(ks[1].state))
    || (|ks| >= 2 && ks[0] == Requested && ks[1] == Approved && LiveTail(ks[2..]))
  }

  predicate LiveTail(ks: seq<SessionKind>) {
    || (forall i :: 0 <= i < |ks| ==> IsLive(ks[i]))
    || (|ks| > 0 && (forall i :: 0 <= i < |ks| - 1 ==> IsLive(ks[i])) && IsLiveEnd(ks[|ks| - 1]))
  }

  predicate IsLive(k: SessionKind) {
    k == PermissionsChanged || k == ControlHandover
  }

  predicate IsLiveEnd(k: SessionKind) {
    k == Ended(Closed) || k == Ended(Expired) || k == Ended(Revoked)
  }

  /** The state that the last event fixes. */
  function LastState(ks: seq<SessionKind>): SessionState
    requires ks != []
  {
    var k := ks[|ks| - 1];
    if k == Requested then Pending else if k.Ended? then k.state else Active
  }

  function Fold(ks: seq<SessionKind>): Phase {
    if ks == [] then Absent else Next(Fold(ks[..|ks| - 1]), ks[|ks| - 1])
  }

  lemma {:induction false} FoldIsPhase(h: seq<Audit>, targets: map<Id, Id>, id: Id)
    ensures Replay(h, targets, id).phase == Fold(Kinds(h, id))
  {
    if h != [] {
      FoldIsPhase(h[..|h| - 1], targets, id);
      var ks, e := Kinds(h[..|h| - 1], id), h[|h| - 1];
      if OwnEvent(e, id) {
        assert (ks + [e.action.kind])[..|ks|] == ks;
      } else {
        assert ks + [] == ks;
      }
    }
  }

  /** Not being broken is being a prefix of the language, and the last event fixes the state. */
  lemma {:induction false} FoldIsLanguage(ks: seq<SessionKind>)
    ensures Fold(ks) != Broken <==> WellShaped(ks)
    ensures WellShaped(ks) && ks != [] ==> Fold(ks) == In(LastState(ks))
  {
    if ks != [] {
      FoldIsLanguage(ks[..|ks| - 1]);
      ShapeStep(ks[..|ks| - 1], ks[|ks| - 1]);
      assert ks == ks[..|ks| - 1] + [ks[|ks| - 1]];
    }
  }

  lemma ShapeStep(ks: seq<SessionKind>, k: SessionKind)
    ensures WellShaped(ks + [k]) <==>
            WellShaped(ks) && Next(if ks == [] then Absent else In(LastState(ks)), k) != Broken
  {
    var all := ks + [k];
    assert forall i :: 0 <= i < |ks| ==> all[i] == ks[i];
    if ks == [] {
      assert all == [k] && all[0] == k;
    } else if |ks| == 1 {
      assert ks == [ks[0]] && all[2..] == [];
    } else if ks[1] == Approved {
      LiveStep(ks, k);
    }
  }

  lemma LiveStep(ks: seq<SessionKind>, k: SessionKind)
    requires |ks| >= 2 && ks[1] == Approved
    ensures WellShaped(ks + [k]) <==> WellShaped(ks) && Next(In(LastState(ks)), k) != Broken
  {
    var all, live := ks + [k], ks[2..];
    assert all[2..] == live + [k] && all[0] == ks[0] && all[1] == ks[1];
    TailStep(live, k);
    if live != [] {
      assert live[|live| - 1] == ks[|ks| - 1];
      if forall i :: 0 <= i < |live| ==> IsLive(live[i]) {
        assert IsLive(live[|live| - 1]);
      }
    }
  }

  lemma TailStep(ks: seq<SessionKind>, k: SessionKind)
    ensures LiveTail(ks + [k]) <==>
            (forall i :: 0 <= i < |ks| ==> IsLive(ks[i])) && (IsLive(k) || IsLiveEnd(k))
  {
    var all := ks + [k];
    assert forall i :: 0 <= i < |ks| ==> all[i] == ks[i];
    assert all[|ks|] == k;
  }
}
