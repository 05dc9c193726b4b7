/** Which sessions end, how and on whose account, in any run: one law for all, and what the sections that
    end many at once leave. */
module Terminations {
  import opened Wrappers
  import opened Types
  import opened Permissions
  import opened Model
  import opened Runs
  import opened Frames
  import opened Invariants
  import opened Worlds
  import opened Authority
  import opened Access
  import opened Rulings

  // ---------- why a session ends ----------

  predicate IsOpen(v: SessionRec) {
    v.state == Pending || v.state == Active
  }

  /** The state in which the event ends the session, if it does: a prologue at or after its deadline, a stop or an
      invalidation of its operator or of its target's owner, a refusal or an empty list from the proved
      owner of its target, a revocation of one of its devices by that device's owner. */
  ghost function Cause(st: State, e: Event, id: Id): Option<SessionState> {
    if id !in st.sessions || !IsOpen(st.sessions[id]) then None
    else
      var v, i := st.sessions[id], e.input;
      if i.Arrive? && e.now >= v.expires then Some(Expired)
      else if i.StopSession? && i.id == id && PartyTo(st, v, i.user) then Some(Closed)
      else if (exists user :: Invalidates(st, e, user) && PartyTo(st, v, user)) then Some(Closed)
      else if i.Decide? && i.id == id && OwnerActs(st, e, id) && v.state == Pending && !i.approve then Some(Rejected)
      else if i.ChangePermissions? && i.id == id && OwnerActs(st, e, id) && v.state == Active && i.grant == []
      then Some(Revoked)
      else if i.RevokeDevice? && i.id in st.devices && st.devices[i.id].owner == i.user
              && (v.source == i.id || v.target == i.id)
      then Some(Revoked)
      else None
  }

  function EndedAs(v: SessionRec, final: SessionState): SessionRec {
    v.(state := final, granted := [], epoch := v.epoch + 1)
  }

  // ---------- many at once ----------

  function Notices(ids: seq<Id>, final: SessionState, actor: Id, now: Time): seq<Audit> {
    seq(|ids|, i requires 0 <= i < |ids| => Audit(actor, SessionEvent(Ended(final)), ids[i], now))
  }

  /** All sessions that the event gives cause to end are ended, each recorded once, in some order; then
      `tail` is recorded. No other session changes. */
  ghost predicate EndsJust(st: State, e: Event, st': State, final: SessionState, actor: Id, tail: seq<Audit>) {
    && st'.sessions.Keys == st.sessions.Keys
    && (forall x :: x in st.sessions ==>
          st'.sessions[x] == if Cause(st, e, x).Some? then EndedAs(st.sessions[x], final) else st.sessions[x])
    && exists ids :: NoDuplicates(ids) && (forall x :: x in ids <==> Cause(st, e, x).Some?)
                     && st'.history == st.history + Notices(ids, final, actor, e.now) + tail
  }

  predicate AllRegistered(st: State) {
    forall p :: p in st.peers ==> p in st.devices
  }

  /** Stale challenges, windows and tokens apart, a prologue changes nothing but overdue sessions. */
  ghost predicate ArriveLaw(st: State, e: Event, st': State) {
    && EndsJust(st, e, st', Expired, "system", [])
    && st' == st.(sessions := st'.sessions, history := st'.history, challenges := st'.challenges,
                  rates := st'.rates, refresh := st'.refresh)
  }

  /** Every token of the user, and of the family if one is named, counts as used; no other token changes. */
  ghost predicate UsesUp(st: State, st': State, user: Id, family: Option<string>) {
    && st'.refresh.Keys == st.refresh.Keys
    && forall d :: d in st.refresh ==>
         var t := st.refresh[d];
         st'.refresh[d] == if t.user == user || family == Some(t.family) then t.(used := true) else t
  }

  /** Whoever is invalidated loses every session the user is party to, and the account's version moves on.
      The event is recorded and the answer given if all peers are registered devices. */
  ghost predicate InvalidationLaw(st: State, e: Event, user: Id, family: Option<string>, event: Audit, reply: Response,
                                  r: Response, st': State)
  {
    && user in st.accounts && UsesUp(st, st', user, family)
    && EndsJust(st, e, st', Closed, user, if AllRegistered(st) then [event] else [])
    && r == (if AllRegistered(st) then reply else Crashed)
    && st' == st.(sessions := st'.sessions, history := st'.history, refresh := st'.refresh,
                  accounts := st.accounts[user := st.accounts[user].(version := st.accounts[user].version + 1)])
  }

  ghost predicate RevokeLaw(st: State, e: Event, r: Response, st': State)
    requires e.input.RevokeDevice?
  {
    var user, id := e.input.user, e.input.id;
    var owns := id in st.devices && st.devices[id].owner == user;
    && r == (if owns then Done else Fail(404, DeviceNotFound))
    && (!owns ==> st' == st)
    && (owns ==>
          && EndsJust(st, e, st', Revoked, user, [Audit(user, DeviceRevoked, id, e.now)])
          && st' == st.(sessions := st'.sessions, history := st'.history,
                        devices := st.devices[id := st.devices[id].(revoked := true)]))
  }

  // ---------- section by section ----------

  lemma {:induction false} EndedInOrder(devices: map<Id, DeviceRec>, sessions: map<Id, SessionRec>, which: Which,
                                        final: SessionState, actor: Id, order: seq<Id>, now: Time)
      returns (ids: seq<Id>)
    requires NoDuplicates(order)
    ensures NoDuplicates(ids)
    ensures forall x :: x in ids <==> x in order && x in sessions && Hit(devices, which, sessions[x])
    ensures EndEvents(devices, sessions, which, final, actor, order, now) == Notices(ids, final, actor, now)
  {
    if order == [] {
      ids := [];
    } else {
      var front, id := order[..|order| - 1], order[|order| - 1];
      var before := EndedInOrder(devices, sessions, which, final, actor, front, now);
      assert order == front + [id] && id !in front;
      ids := if id in sessions && Hit(devices, which, sessions[id]) then before + [id] else before;
    }
  }

  lemma EndWhereEnds(st: State, e: Event, o: Outcome)
    requires o.effect.EndWhere? && o.base.sessions == st.sessions && o.base.history == st.history
    requires IsOrder(o.effect.order, st.sessions.Keys)
    requires forall x :: Cause(st, e, x).Some? <==>
                           x in st.sessions && Hit(o.base.devices, o.effect.which, st.sessions[x])
    ensures EndsJust(st, e, Commit(o, e.now), o.effect.final, o.effect.actor, o.tail)
  {
    var f, st' := o.effect, Commit(o, e.now);
    var ids := EndedInOrder(o.base.devices, st.sessions, f.which, f.final, f.actor, f.order, e.now);
    assert st'.history == st.history + Notices(ids, f.final, f.actor, e.now) + o.tail;
  }

  lemma ArriveIsLawful(st: State, e: Event, purge: bool)
    requires e.input.Arrive? && IsOrder(e.order, st.sessions.Keys)
    ensures ArriveLaw(st, e, Commit(PlanArrive(st, e.input.host, e.input.authPath, e.now, e.order, purge), e.now))
  {
    EndWhereEnds(st, e, PlanArrive(st, e.input.host, e.input.authPath, e.now, e.order, purge));
  }

  lemma CauseOfInvalidation(st: State, e: Event, user: Id)
    requires Invalidates(st, e, user)
    ensures forall x :: Cause(st, e, x).Some? <==>
                          x in st.sessions && Hit(st.devices, VisibleTo(user), st.sessions[x])
    ensures forall x :: Cause(st, e, x).Some? ==> Cause(st, e, x) == Some(Closed)
  {
  }

  /** What the plan of an invalidation is. */
  predicate Invalidating(st: State, o: Outcome, user: Id, order: seq<Id>, event: Audit, reply: Response) {
    && user in st.accounts && o.effect == EndWhere(VisibleTo(user), Closed, user, order)
    && o.base == st.(refresh := o.base.refresh,
                     accounts := st.accounts[user := st.accounts[user].(version := st.accounts[user].version + 1)])
    && o.tail == (if AllRegistered(st) then [event] else [])
    && o.reply == (if AllRegistered(st) then reply else Crashed)
  }

  lemma InvalidatingIsLawful(st: State, e: Event, o: Outcome, user: Id, family: Option<string>, event: Audit,
                             reply: Response)
    requires Invalidates(st, e, user) && IsOrder(e.order, st.sessions.Keys)
    requires Invalidating(st, o, user, e.order, event, reply) && UsesUp(st, o.base, user, family)
    ensures InvalidationLaw(st, e, user, family, event, reply, o.reply, Commit(o, e.now))
  {
    CauseOfInvalidation(st, e, user);
    EndWhereEnds(st, e, o);
  }

  lemma LogoutIsLawful(st: State, e: Event)
    requires e.input.Logout? && e.input.user in st.accounts && IsOrder(e.order, st.sessions.Keys)
    ensures var user := e.input.user;
            var o := PlanLogout(st, user, e.now, e.order);
            InvalidationLaw(st, e, user, None, Audit(user, AccountLogout, user, e.now), Done, o.reply, Commit(o, e.now))
  {
    var user := e.input.user;
    InvalidatingIsLawful(st, e, PlanLogout(st, user, e.now, e.order), user, None,
                         Audit(user, AccountLogout, user, e.now), Done);
  }

  lemma ReuseInvalidating(st: State, e: Event)
    requires Reuses(st, e) && OwnersExist(st)
    ensures var t := st.refresh[Digest(e.input.token)];
            var o := PlanRotate(st, e.input.token, e.input.raw, e.now, e.order);
            && Invalidating(st, o, t.user, e.order, Audit(t.user, RefreshReuse, t.family, e.now),
                            Fail(401, ReusedRefresh))
            && UsesUp(st, o.base, t.user, Some(t.family))
  {
  }

  lemma ReuseIsLawful(st: State, e: Event)
    requires Reuses(st, e) && OwnersExist(st) && IsOrder(e.order, st.sessions.Keys)
    ensures var t := st.refresh[Digest(e.input.token)];
            var o := PlanRotate(st, e.input.token, e.input.raw, e.now, e.order);
            InvalidationLaw(st, e, t.user, Some(t.family), Audit(t.user, RefreshReuse, t.family, e.now),
                            Fail(401, ReusedRefresh), o.reply, Commit(o, e.now))
  {
    var t := st.refresh[Digest(e.input.token)];
    ReuseInvalidating(st, e);
    InvalidatingIsLawful(st, e, PlanRotate(st, e.input.token, e.input.raw, e.now, e.order), t.user, Some(t.family),
                         Audit(t.user, RefreshReuse, t.family, e.now), Fail(401, ReusedRefresh));
  }

  lemma RevokeIsLawful(st: State, e: Event)
    requires e.input.RevokeDevice? && IsOrder(e.order, st.sessions.Keys)
    ensures var o := PlanRevokeDevice(st, e.input.user, e.input.id, e.now, e.order);
            RevokeLaw(st, e, o.reply, Commit(o, e.now))
  {
    var o := PlanRevokeDevice(st, e.input.user, e.input.id, e.now, e.order);
    assert st.history + [] + [] == st.history;
    if o.reply == Done {
      EndWhereEnds(st, e, o);
    }
  }

  // ---------- in any run ----------

  /** In any run: a prologue ends exactly the overdue sessions. */
  lemma ArriveIsExact(ws: seq<World>, es: seq<Event>, purge: bool, n: nat)
    requires IsRun(ws, es, purge) && n < |es| && es[n].input.Arrive?
    ensures ArriveLaw(ws[n].st, es[n], ws[n + 1].st)
  {
    var i := es[n].input;
    assert Plan(ws[n].st, es[n], purge) ==
           PlanArrive(ws[n].st, i.host, i.authPath, es[n].now, es[n].order, purge);
    ArriveIsLawful(ws[n].st, es[n], purge);
  }

  /** In any run: a logout ends exactly the open sessions the user is party to. */
  lemma LogoutIsExact(ws: seq<World>, es: seq<Event>, purge: bool, n: nat)
    requires IsRun(ws, es, purge) && n < |es| && es[n].input.Logout?
    ensures var user := es[n].input.user;
            InvalidationLaw(ws[n].st, es[n], user, None, Audit(user, AccountLogout, user, es[n].now), Done,
                            Reply(ws[n], es[n], purge), ws[n + 1].st)
  {
    assert Plan(ws[n].st, es[n], purge) == PlanLogout(ws[n].st, es[n].input.user, es[n].now, es[n].order);
    LogoutIsLawful(ws[n].st, es[n]);
  }

  /** In any run: a used token, presented again in time, ends exactly the open sessions its user is party to. */
  lemma ReuseIsExact(ws: seq<World>, es: seq<Event>, purge: bool, n: nat)
    requires IsRun(ws, es, purge) && n < |es| && Reuses(ws[n].st, es[n])
    ensures var t := ws[n].st.refresh[Digest(es[n].input.token)];
            InvalidationLaw(ws[n].st, es[n], t.user, Some(t.family), Audit(t.user, RefreshReuse, t.family, es[n].now),
                            Fail(401, ReusedRefresh), Reply(ws[n], es[n], purge), ws[n + 1].st)
  {
    var i := es[n].input;
    assert Plan(ws[n].st, es[n], purge) == PlanRotate(ws[n].st, i.token, i.raw, es[n].now, es[n].order);
    ReuseIsLawful(ws[n].st, es[n]);
  }

  /** No session that is pending or active is on the device. */
  predicate NoneOn(st: State, device: Id) {
    forall x :: x in st.sessions && IsOpen(st.sessions[x]) ==>
      st.sessions[x].source != device && st.sessions[x].target != device
  }

  /** In any run: a revocation is answered exactly if the device is registered and its owner asks. It is then
      revoked, nothing else of any device has changed, and no session on it is open. */
  lemma RevokeIsExact(ws: seq<World>, es: seq<Event>, purge: bool, n: nat)
    requires IsRun(ws, es, purge) && n < |es| && es[n].input.RevokeDevice?
    ensures RevokeLaw(ws[n].st, es[n], Reply(ws[n], es[n], purge), ws[n + 1].st)
    ensures Reply(ws[n], es[n], purge) == Done ==>
              && es[n].input.id in ws[n + 1].st.devices && ws[n + 1].st.devices[es[n].input.id].revoked
              && NoneOn(ws[n + 1].st, es[n].input.id)
  {
    var i := es[n].input;
    assert Plan(ws[n].st, es[n], purge) == PlanRevokeDevice(ws[n].st, i.user, i.id, es[n].now, es[n].order);
    RevokeIsLawful(ws[n].st, es[n]);
    RevokedHasNone(ws[n].st, es[n], Reply(ws[n], es[n], purge), ws[n + 1].st);
  }

  lemma RevokedHasNone(st: State, e: Event, r: Response, st': State)
    requires e.input.RevokeDevice? && RevokeLaw(st, e, r, st')
    ensures r == Done ==> e.input.id in st'.devices && st'.devices[e.input.id].revoked && NoneOn(st', e.input.id)
  {
  }

  /** The event ends the session as it should, or leaves it open as it should. */
  ghost predicate EndsIfCaused(st: State, e: Event, st': State, id: Id)
    requires id in st.sessions
  {
    && id in st'.sessions
    && match Cause(st, e, id)
       case Some(final) => st'.sessions[id] == EndedAs(st.sessions[id], final)
       case None => IsOpen(st'.sessions[id])
  }

  predicate EndsMany(st: State, e: Event) {
    e.input.Arrive? || e.input.Logout? || e.input.RevokeDevice? || Reuses(st, e)
  }

  predicate Rules(i: Input) {
    i.RequestSession? || i.Decide? || i.ChangePermissions? || i.HandControl? || i.StopSession?
  }

  lemma JustEndsIfCaused(st: State, e: Event, st': State, final: SessionState, actor: Id, tail: seq<Audit>, id: Id)
    requires EndsJust(st, e, st', final, actor, tail) && EndsMany(st, e)
    requires id in st.sessions && IsOpen(st.sessions[id]) && Cause(st, e, id) in {None, Some(final)}
    ensures EndsIfCaused(st, e, st', id)
  {
  }

  lemma ArriveEndsIfCaused(st: State, e: Event, st': State, id: Id)
    requires e.input.Arrive? && ArriveLaw(st, e, st') && id in st.sessions && IsOpen(st.sessions[id])
    ensures EndsIfCaused(st, e, st', id)
  {
  }

  lemma ManyEndIfCaused(ws: seq<World>, es: seq<Event>, purge: bool, n: nat, id: Id)
    requires IsRun(ws, es, purge) && n < |es| && EndsMany(ws[n].st, es[n])
    requires id in ws[n].st.sessions && IsOpen(ws[n].st.sessions[id])
    ensures EndsIfCaused(ws[n].st, es[n], ws[n + 1].st, id)
  {
    var st, e, st' := ws[n].st, es[n], ws[n + 1].st;
    if e.input.Arrive? {
      ArriveIsExact(ws, es, purge, n);
      ArriveEndsIfCaused(st, e, st', id);
    } else if e.input.RevokeDevice? {
      RevokeIsExact(ws, es, purge, n);
      RevokeEndsIfCaused(st, e, Reply(ws[n], e, purge), st', id);
    } else {
      var user, tail := InvalidationEnds(ws, es, purge, n);
      CauseOfInvalidation(st, e, user);
      JustEndsIfCaused(st, e, st', Closed, user, tail, id);
    }
  }

  lemma InvalidationEnds(ws: seq<World>, es: seq<Event>, purge: bool, n: nat)
      returns (user: Id, tail: seq<Audit>)
    requires IsRun(ws, es, purge) && n < |es| && (es[n].input.Logout? || Reuses(ws[n].st, es[n]))
    ensures Invalidates(ws[n].st, es[n], user)
    ensures EndsJust(ws[n].st, es[n], ws[n + 1].st, Closed, user, tail)
  {
    var st, now := ws[n].st, es[n].now;
    if es[n].input.Logout? {
      user := es[n].input.user;
      tail := if AllRegistered(st) then [Audit(user, AccountLogout, user, now)] else [];
      LogoutIsExact(ws, es, purge, n);
    } else {
      var t := st.refresh[Digest(es[n].input.token)];
      user, tail := t.user, if AllRegistered(st) then [Audit(t.user, RefreshReuse, t.family, now)] else [];
      ReuseIsExact(ws, es, purge, n);
    }
  }

  lemma RevokeEndsIfCaused(st: State, e: Event, r: Response, st': State, id: Id)
    requires e.input.RevokeDevice? && RevokeLaw(st, e, r, st') && id in st.sessions && IsOpen(st.sessions[id])
    ensures EndsIfCaused(st, e, st', id)
  {
  }

  lemma RulingInvalidatesNone(st: State, e: Event)
    requires Rules(e.input)
    ensures forall user :: !Invalidates(st, e, user)
  {
  }

  lemma RequestKeeps(st: State, e: Event, r: Response, st': State, id: Id)
    requires e.input.RequestSession? && RequestLaw(st, e, r, st') && e.input.newId !in st.sessions
    requires id in st.sessions
    ensures id in st'.sessions && st'.sessions[id] == st.sessions[id]
  {
    if r.SessionOut? {
      assert OnRequest(st, st', r, e.input, e.now);
    }
  }

  lemma StaysWithoutCause(st: State, e: Event, st': State, id: Id)
    requires e.input.RequestSession? || e.input.HandControl?
    requires id in st.sessions && id in st'.sessions && IsOpen(st'.sessions[id])
    ensures EndsIfCaused(st, e, st', id)
  {
    RulingInvalidatesNone(st, e);
  }

  ghost predicate Decided(st: State, e: Event, st': State)
    requires e.input.Decide?
  {
    var i := e.input;
    if st'.sessions == st.sessions
    then !(OwnerActs(st, e, i.id) && st.sessions[i.id].state == Pending && !i.approve)
    else
      && OwnerActs(st, e, i.id) && st.sessions[i.id].state == Pending
      && st'.sessions == st.sessions[i.id := DecidedTo(st.sessions[i.id], i.approve, i.grant, e.now)]
  }

  lemma DecisionMakes(st: State, e: Event, r: Response, st': State)
    requires e.input.Decide? && DecideLaw(st, e, r, st')
    ensures Decided(st, e, st')
  {
    var i := e.input;
    if OwnerActs(st, e, i.id) {
      assert OnDecision(st, st', r, i.user, i.id, i.approve, i.grant, e.now);
    }
  }

  lemma DecisionEndsIfCaused(st: State, e: Event, st': State, id: Id)
    requires e.input.Decide? && Decided(st, e, st') && id in st.sessions && IsOpen(st.sessions[id])
    ensures EndsIfCaused(st, e, st', id)
  {
    RulingInvalidatesNone(st, e);
  }

  lemma ChangeEndsIfCaused(st: State, e: Event, r: Response, st': State, id: Id)
    requires e.input.ChangePermissions? && ChangeLaw(st, e, r, st') && id in st.sessions && IsOpen(st.sessions[id])
    ensures EndsIfCaused(st, e, st', id)
  {
    RulingInvalidatesNone(st, e);
    var i := e.input;
    if r.SessionOut? {
      assert OnChange(st, st', r, i.user, i.id, i.grant, e.now);
    }
  }

  lemma HandedStaysOpen(v: SessionRec, v': SessionRec, winner: bool, rival: bool)
    requires Handed(v, v', winner, rival)
    ensures IsOpen(v') <==> IsOpen(v)
  {
  }

  lemma HandoverKeepsOpen(st: State, e: Event, r: Response, st': State, id: Id)
    requires e.input.HandControl? && HandoverLaw(st, e, r, st') && id in st.sessions && IsOpen(st.sessions[id])
    ensures id in st'.sessions && IsOpen(st'.sessions[id])
  {
    if r.SessionOut? {
      assert OnHandover(st, st', r, e.input.user, e.input.id, e.now);
      HandedStaysOpen(st.sessions[id], st'.sessions[id], id == e.input.id,
                      st.sessions[id].target == st.sessions[e.input.id].target && st.sessions[id].state == Active);
    }
  }

  lemma StopEndsIfCaused(st: State, e: Event, r: Response, st': State, id: Id)
    requires e.input.StopSession? && StopLaw(st, e, r, st') && id in st.sessions && IsOpen(st.sessions[id])
    ensures EndsIfCaused(st, e, st', id)
  {
    RulingInvalidatesNone(st, e);
  }

  lemma OneEndsIfCaused(ws: seq<World>, es: seq<Event>, purge: bool, n: nat, id: Id)
    requires IsRun(ws, es, purge) && n < |es| && Rules(es[n].input)
    requires id in ws[n].st.sessions && IsOpen(ws[n].st.sessions[id])
    ensures EndsIfCaused(ws[n].st, es[n], ws[n + 1].st, id)
  {
    var st, e, st', r := ws[n].st, es[n], ws[n + 1].st, Reply(ws[n], es[n], purge);
    if e.input.RequestSession? {
      RunNamed(ws, es, purge, n);
      assert e.input.newId in Draws(e.input);
      RequestIsExact(ws, es, purge, n);
      RequestKeeps(st, e, r, st', id);
      StaysWithoutCause(st, e, st', id);
    } else if e.input.Decide? {
      DecideIsExact(ws, es, purge, n);
      DecisionMakes(st, e, r, st');
      DecisionEndsIfCaused(st, e, st', id);
    } else if e.input.ChangePermissions? {
      ChangeIsExact(ws, es, purge, n);
      ChangeEndsIfCaused(st, e, r, st', id);
    } else if e.input.HandControl? {
      HandoverChangesExactly(ws, es, purge, n);
      HandoverKeepsOpen(st, e, r, st', id);
      StaysWithoutCause(st, e, st', id);
    } else {
      StopIsExact(ws, es, purge, n);
      StopEndsIfCaused(st, e, r, st', id);
    }
  }

  /** In any run an open session ends exactly if the event gives cause, and then in the state due to it; no
      other event ends it. */
  lemma EndsIffCaused(ws: seq<World>, es: seq<Event>, purge: bool, n: nat, id: Id)
    requires IsRun(ws, es, purge) && n < |es| && id in ws[n].st.sessions && IsOpen(ws[n].st.sessions[id])
    ensures EndsIfCaused(ws[n].st, es[n], ws[n + 1].st, id)
  {
    if EndsMany(ws[n].st, es[n]) {
      ManyEndIfCaused(ws, es, purge, n, id);
    } else if Rules(es[n].input) {
      OneEndsIfCaused(ws, es, purge, n, id);
    } else {
      OthersEndNone(ws[n].st, es[n], purge);
    }
  }

  lemma OthersEndNone(st: State, e: Event, purge: bool)
    requires Defined(st, e.input) && !EndsMany(st, e) && !Rules(e.input)
    ensures After(Plan(st, e, purge)) == st.sessions && forall x :: Cause(st, e, x).None?
  {
    PlanFramed(st, e, purge);
  }
}
