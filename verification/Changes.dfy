/** What one section changes, spelled out from its plan. */
module Changes {
  import opened Wrappers
  import opened Types
  import opened Permissions
  import opened Token
  import opened Model

  /** Nothing recorded and no session changed: the state as it is. */
  lemma NothingMore(st: State, now: Time)
    ensures forall reply :: Commit(Outcome(st, Quiet, [], reply), now) == st
  {
    assert st.history + [] + [] == st.history;
  }

  function WithAccount(st: State, a: AccountRec): State {
    st.(accounts := st.accounts[a.id := a], emails := st.emails[a.email := a.id])
  }

  lemma RegisterCommits(st: State, email: string, name: string, password: string, id: Id, family: string, raw: string,
                        now: Time)
    requires ValidRegistration(true, name, password) && (email in st.emails ==> st.emails[email] == "")
    ensures var a := AccountRec(id, email, name, PasswordHash(password), 0);
            var base := WithAccount(st, a).(history := st.history + [Audit(id, AccountRegistered, id, now)]);
            var o := PlanRegister(st, true, email, name, password, id, family, raw, now);
            Commit(o, now) == Issue(base, id, family, raw, now) && o.reply == IssuedTokens(base, 201, id, raw, now)
  {
    assert st.history + [] == st.history;
  }

  lemma LoginCommits(st: State, id: Id, family: string, raw: string, now: Time)
    requires id in st.accounts
    ensures var e := Audit(id, AccountLogin, id, now);
            var base := st.(history := st.history + [e]);
            && Commit(Outcome(Issue(st, id, family, raw, now), Quiet, [e], IssuedTokens(st, 200, id, raw, now)), now) ==
               Issue(base, id, family, raw, now)
            && IssuedTokens(st, 200, id, raw, now) == IssuedTokens(base, 200, id, raw, now)
  {
    assert st.history + [] == st.history;
  }

  function FamilyUsed(st: State, family: string): State {
    st.(refresh := UseFamily(st.refresh, family))
  }

  function TokenUsed(st: State, d: Digest): State
    requires d in st.refresh
  {
    st.(refresh := st.refresh[d := st.refresh[d].(used := true)])
  }

  /** The sessions ended, and the event recorded if the loop over the peers came to its end. */
  function AfterClosing(st: State, user: Id, order: seq<Id>, e: Audit, now: Time): State {
    AllEnded(st, VisibleTo(user), Closed, user, order, if PeersKnown(st) then [e] else [], now)
  }

  lemma AfterInvalidateCommits(st: State, user: Id, order: seq<Id>, e: Audit, reply: Response, now: Time)
    ensures Commit(AfterInvalidate(st, user, order, e, reply), now) == AfterClosing(st, user, order, e, now)
  {
  }

  lemma LogoutCommits(st: State, user: Id, now: Time, order: seq<Id>)
    requires user in st.accounts
    ensures var e := Audit(user, AccountLogout, user, now);
            var o := PlanLogout(st, user, now, order);
            && Commit(o, now) == AfterClosing(Invalidate(st, user), user, order, e, now)
            && o.reply == if PeersKnown(st) then Done else Crashed
  {
    AfterInvalidateCommits(Invalidate(st, user), user, order, Audit(user, AccountLogout, user, now), Done, now);
  }

  lemma ReuseCommits(st: State, d: Digest, t: RefreshRec, raw: string, now: Time, order: seq<Id>)
    requires OwnersExist(st) && d in st.refresh && t == st.refresh[d] && now < t.expires && t.used
    ensures var e := Audit(t.user, RefreshReuse, t.family, now);
            var o := PlanRotate(st, d.of, raw, now, order);
            && Commit(o, now) == AfterClosing(Invalidate(FamilyUsed(st, t.family), t.user), t.user, order, e, now)
            && o.reply == if PeersKnown(st) then Fail(401, ReusedRefresh) else Crashed
  {
    AfterInvalidateCommits(Invalidate(FamilyUsed(st, t.family), t.user), t.user, order,
                           Audit(t.user, RefreshReuse, t.family, now), Fail(401, ReusedRefresh), now);
  }

  lemma RotateCommits(st: State, d: Digest, t: RefreshRec, raw: string, now: Time, order: seq<Id>)
    requires OwnersExist(st) && d in st.refresh && t == st.refresh[d] && now < t.expires && !t.used
    ensures var base := TokenUsed(st, d);
            var o := PlanRotate(st, d.of, raw, now, order);
            && Commit(o, now) == Issue(base, t.user, t.family, raw, now)
            && o.reply == IssuedTokens(base, 200, t.user, raw, now)
  {
    assert st.history + [] + [] == st.history;
  }

  function Revoking(st: State, id: Id): State
    requires id in st.devices
  {
    st.(devices := st.devices[id := st.devices[id].(revoked := true)])
  }

  function AllEnded(st: State, which: Which, final: SessionState, actor: Id, order: seq<Id>, tail: seq<Audit>,
                    now: Time): State {
    st.(sessions := ApplyEffect(st.devices, st.sessions, EndWhere(which, final, actor, order)),
        history := st.history + EndEvents(st.devices, st.sessions, which, final, actor, order, now) + tail)
  }

  lemma AllEndedThen(st: State, which: Which, final: SessionState, actor: Id, order: seq<Id>, e: Audit, now: Time)
    ensures var ended := AllEnded(st, which, final, actor, order, [], now);
            ended.(history := ended.history + [e]) == AllEnded(st, which, final, actor, order, [e], now)
  {
  }

  /** The peers whose sockets `invalidate` closes, when it comes to its end. */
  function PeersOf(st: State, user: Id): set<Id> {
    set p | p in st.peers && p in st.devices && st.devices[p].owner == user
  }

  lemma EndingCommits(st: State, which: Which, final: SessionState, actor: Id, order: seq<Id>, e: Audit,
                      reply: Response, now: Time)
    ensures Commit(Outcome(st, EndWhere(which, final, actor, order), [e], reply), now) ==
            AllEnded(st, which, final, actor, order, [e], now)
  {
  }

  function ChargedRates(rates: map<string, Rate>, host: string, authPath: bool, now: Time): map<string, Rate> {
    rates[RateKey(host, authPath) := Charge(rates, RateKey(host, authPath), now)]
  }

  function LimitReply(rates: map<string, Rate>, host: string, authPath: bool): Response
    requires RateKey(host, authPath) in rates
  {
    if rates[RateKey(host, authPath)].count > RateLimit(authPath) then Fail(429, TooManyRequests) else Admitted
  }

  lemma ArriveCommits(st: State, host: string, authPath: bool, now: Time, order: seq<Id>)
    ensures var after := AllEnded(Purge(st, now), Overdue(now), Expired, SYSTEM, order, [], now);
            var o := PlanArrive(st, host, authPath, now, order, true);
            var rates := ChargedRates(after.rates, host, authPath, now);
            Commit(o, now) == after.(rates := rates) && o.reply == LimitReply(rates, host, authPath)
  {
  }

  function Renamed(d: DeviceRec, name: string, os: string, kind: string): DeviceRec {
    d.(name := name, os := os, kind := kind)
  }

  function Enrolled(st: State, d: DeviceRec, user: Id, action: Action, now: Time): State {
    st.(devices := st.devices[d.id := d], history := st.history + [Audit(user, action, d.id, now)])
  }

  lemma EnrolledCommits(st: State, d: DeviceRec, action: Action, code: nat, now: Time)
    ensures Commit(Outcome(st.(devices := st.devices[d.id := d]), Quiet, [Audit(d.owner, action, d.id, now)],
                           DeviceOut(code, d)), now) == Enrolled(st, d, d.owner, action, now)
  {
    assert st.history + [] + [Audit(d.owner, action, d.id, now)] == st.history + [Audit(d.owner, action, d.id, now)];
  }

  lemma EnrolCases(st: State, user: Id, name: string, key: string, os: string, kind: string, id: Id, now: Time,
                   holder: Option<Id>)
    requires UniqueKeys(st.devices)
    requires holder.Some? ==> HoldsKey(st.devices, holder.value, key)
    requires holder.None? ==> !(exists h :: HoldsKey(st.devices, h, key))
    ensures var d := DeviceRec(id, user, key, name, os, kind, ZERO_TIME, false);
            Enrol(st, user, name, key, os, kind, id, now) ==
            if holder.Some? then Confirm(st, user, holder.value, name, os, kind, now)
            else if |ActiveDevices(st.devices, user)| >= MAX_DEVICES then Outcome(st, Quiet, [], Fail(409, DeviceLimit))
            else Outcome(st.(devices := st.devices[id := d]), Quiet, [Audit(user, DeviceRegistered, id, now)],
                         DeviceOut(201, d))
  {
    if holder.Some? {
      forall h | HoldsKey(st.devices, h, key) ensures h == holder.value {
      }
    }
  }

  function YieldAt(was: map<Id, SessionRec>, other: Id, id: Id): map<Id, SessionRec> {
    if YieldsTo(was, other, id) then was[other := Yield(was[other])] else was
  }

  /** All but those still to be met. */
  function Yielded(was: map<Id, SessionRec>, id: Id, todo: set<Id>): map<Id, SessionRec> {
    map k | k in was :: if k !in todo && YieldsTo(was, k, id) then Yield(was[k]) else was[k]
  }

  lemma YieldedStep(was: map<Id, SessionRec>, id: Id, todo: set<Id>, other: Id)
    requires other in todo
    ensures YieldAt(Yielded(was, id, todo), other, id) == Yielded(was, id, todo - {other})
  {
  }

  function TakenAt(was: map<Id, SessionRec>, id: Id): map<Id, SessionRec> {
    if id in was then was[id := TakeOver(was[id])] else was
  }

  function HandedTo(st: State, id: Id, user: Id, now: Time): State {
    st.(sessions := TakenAt(Yielded(st.sessions, id, {}), id),
        history := st.history + [Audit(user, SessionEvent(ControlHandover), id, now)])
  }

  lemma HandoverCommits(st: State, id: Id, user: Id, now: Time)
    requires id in st.sessions
    ensures var o, after := Answer(st, Handover(id, user), id), HandedTo(st, id, user, now);
            Commit(o, now) == after && o.reply == SessionOut(200, after.sessions[id])
  {
  }

  lemma HandoverToCases(st: State, id: Id, user: Id, now: Time)
    requires id in st.sessions
    ensures var o, after := HandoverTo(st, user, id), HandedTo(st, id, user, now);
            if st.sessions[id].state == Active && Controls(st.sessions[id].requested)
            then Commit(o, now) == after && o.reply == SessionOut(200, after.sessions[id])
            else o == Outcome(st, Quiet, [], Fail(409, NoControlRequested))
  {
    HandoverCommits(st, id, user, now);
  }

  function Created(st: State, v: SessionRec): Outcome {
    Outcome(st, Create(v), [], SessionOut(201, v))
  }

  function CreatedOne(st: State, v: SessionRec, now: Time): State {
    Changed(st, v.id, v, Audit(v.operator, SessionEvent(Requested), v.id, now))
  }

  lemma CreateCommits(st: State, v: SessionRec, now: Time)
    ensures Commit(Created(st, v), now) == CreatedOne(st, v, now)
  {
  }

  function RequestStop(sessions: map<Id, SessionRec>, user: Id, target: Id, grant: seq<Permission>): Option<Response> {
    if !ValidGrant(grant) then Some(Fail(400, InvalidPermissions))
    else if HasOpenTo(sessions, user, target) then Some(Fail(409, DuplicateSession))
    else if |OpenOf(sessions, user)| >= MAX_OPEN_SESSIONS then Some(Fail(409, SessionLimit))
    else None
  }

  lemma ProposeCases(st: State, user: Id, source: Id, target: Id, grant: seq<Permission>, id: Id, now: Time)
    requires source in st.devices && target in st.devices
    ensures var stop := RequestStop(st.sessions, user, target, grant);
            var v := SessionRec(id, user, source, target, Pending, grant, [], now, now + REQUEST_LIFETIME, 1,
                                st.devices[source].key, st.devices[target].key);
            Propose(st, user, source, target, grant, id, now) ==
            if stop.Some? then Outcome(st, Quiet, [], stop.value) else Created(st, v)
  {
  }

  function GrantStop(sessions: map<Id, SessionRec>, id: Id, grant: seq<Permission>, invalid: Reason): Option<Response>
    requires id in sessions
  {
    if !ValidGrant(grant) || !Within(grant, sessions[id].requested) then Some(Fail(400, invalid))
    else if Controls(grant) && ControllerBusy(sessions, id) then Some(Fail(409, ControllerPresent))
    else None
  }

  /** One session changed and one event recorded. */
  function Changed(st: State, id: Id, v: SessionRec, e: Audit): State {
    st.(sessions := st.sessions[id := v], history := st.history + [e])
  }

  function EndedOne(st: State, id: Id, final: SessionState, actor: Id, now: Time): State
    requires id in st.sessions
  {
    Changed(st, id, Finish(st.sessions[id], final), Audit(actor, SessionEvent(Ended(final)), id, now))
  }

  lemma EndOneCommits(st: State, id: Id, final: SessionState, actor: Id, now: Time)
    requires id in st.sessions
    ensures var o, after := Answer(st, EndOne(id, final, actor), id), EndedOne(st, id, final, actor, now);
            Commit(o, now) == after && o.reply == SessionOut(200, after.sessions[id])
  {
  }

  function ApprovedOne(st: State, id: Id, grant: seq<Permission>, actor: Id, now: Time): State
    requires id in st.sessions
  {
    Changed(st, id, Activate(st.sessions[id], grant, now + SESSION_LIFETIME),
            Audit(actor, SessionEvent(Approved), id, now))
  }

  lemma ApproveCommits(st: State, id: Id, grant: seq<Permission>, actor: Id, now: Time)
    requires id in st.sessions
    ensures var o := Answer(st, Effect.Approve(id, grant, now + SESSION_LIFETIME, actor), id);
            var after := ApprovedOne(st, id, grant, actor, now);
            Commit(o, now) == after && o.reply == SessionOut(200, after.sessions[id])
  {
  }

  function RegrantedOne(st: State, id: Id, grant: seq<Permission>, actor: Id, now: Time): State
    requires id in st.sessions
  {
    Changed(st, id, Grant(st.sessions[id], grant), Audit(actor, SessionEvent(PermissionsChanged), id, now))
  }

  lemma RegrantCommits(st: State, id: Id, grant: seq<Permission>, actor: Id, now: Time)
    requires id in st.sessions
    ensures var o, after := Answer(st, Regrant(id, grant, actor), id), RegrantedOne(st, id, grant, actor, now);
            Commit(o, now) == after && o.reply == SessionOut(200, after.sessions[id])
  {
  }

  function RelayStop(devices: map<Id, DeviceRec>, sessions: map<Id, SessionRec>, iceUrls: seq<string>,
                     user: Id, id: Id, now: Time): (stop: Option<Response>)
    ensures stop.None? ==> id in sessions
  {
    if id !in sessions || !Visible(devices, sessions[id], user) then Some(Fail(404, SessionNotFound))
    else if sessions[id].state != Active || now >= sessions[id].expires then Some(Fail(403, ApprovedSessionRequired))
    else if iceUrls == [] then Some(Fail(503, NoRelay))
    else None
  }

  lemma IceCases(st: State, user: Id, id: Id, now: Time)
    ensures var stop := RelayStop(st.devices, st.sessions, st.iceUrls, user, id, now);
            PlanIce(st, user, id, now) ==
            if stop.Some? then Outcome(st, Quiet, [], stop.value)
            else
              var until := RelayDeadline(st.sessions[id], now);
              Outcome(st, Quiet, [], IceOut(IceEntries(st.iceUrls, Credential(user, Unix(until))), until))
  {
  }

  lemma DecideOnCases(st: State, user: Id, id: Id, approve: bool, grant: seq<Permission>, now: Time)
    requires id in st.sessions
    ensures var stop := GrantStop(st.sessions, id, grant, NotSubset);
            DecideOn(st, user, id, approve, grant, now) ==
            if st.sessions[id].state != Pending then Outcome(st, Quiet, [], Fail(409, NotPending))
            else if !approve then Answer(st, EndOne(id, Rejected, user), id)
            else if stop.Some? then Outcome(st, Quiet, [], stop.value)
            else Answer(st, Effect.Approve(id, grant, now + SESSION_LIFETIME, user), id)
  {
  }

  lemma ChangeOnCases(st: State, user: Id, id: Id, grant: seq<Permission>)
    requires id in st.sessions
    ensures var stop := GrantStop(st.sessions, id, grant, InvalidPermissions);
            ChangeOn(st, user, id, grant) ==
            if st.sessions[id].state != Active then Outcome(st, Quiet, [], Fail(409, NotActive))
            else if grant == [] then Answer(st, EndOne(id, Revoked, user), id)
            else if stop.Some? then Outcome(st, Quiet, [], stop.value)
            else Answer(st, Regrant(id, grant, user), id)
  {
  }
}
