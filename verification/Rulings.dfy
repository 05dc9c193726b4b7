/** What the requests about sessions are answered, and what they leave, in any run. The laws are spelt out on
    the fields of the records before and after and of the request, not through the functions of Model. */
module Rulings {
  import opened Wrappers
  import opened Types
  import opened Permissions
  import opened Model
  import opened Runs
  import opened Authority

  // ---------- words ----------

  /** The session's operator, or the owner of its target. */
  predicate PartyTo(st: State, v: SessionRec, user: Id) {
    v.operator == user || (v.target in st.devices && st.devices[v.target].owner == user)
  }

  predicate OwnsTarget(st: State, id: Id, user: Id) {
    && id in st.sessions && st.sessions[id].target in st.devices
    && st.devices[st.sessions[id].target].owner == user
  }

  /** A list of known permissions, none twice, view among them. */
  predicate IsProper(grant: seq<Permission>) {
    && View in grant && (forall i, j :: 0 <= i < j < |grant| ==> grant[i] != grant[j])
    && forall p :: p in grant ==> !p.Unknown?
  }

  predicate AllIn(grant: seq<Permission>, requested: seq<Permission>) {
    forall p :: p in grant ==> p in requested
  }

  predicate HoldsInput(grant: seq<Permission>) {
    Mouse in grant || Keyboard in grant
  }

  /** Another active session of the same target holds mouse or keyboard. */
  predicate Contended(st: State, id: Id)
    requires id in st.sessions
  {
    exists x :: x in st.sessions && x != id && st.sessions[x].target == st.sessions[id].target
                && st.sessions[x].state == Active && HoldsInput(st.sessions[x].granted)
  }

  /** One session becomes v, one event is recorded, and the answer is the session as stored. */
  predicate Becomes(st: State, st': State, r: Response, id: Id, v: SessionRec, e: Audit) {
    && st'.sessions == st.sessions[id := v] && r == SessionOut(200, v) && st'.history == st.history + [e]
  }

  /** An answer with a session, or a refusal that leaves sessions and history alone. Elsewhere only
      the challenge of a proof that was checked is gone. */
  predicate Confined(st: State, e: Event, r: Response, st': State) {
    && (r.SessionOut? || r.Fail?)
    && (r.Fail? ==> st'.sessions == st.sessions && st'.history == st.history)
    && st' == st.(sessions := st'.sessions, challenges := st'.challenges, history := st'.history)
    && st'.challenges == match Checked(st, e) case Some(p) => st.challenges - {p.nonce} case None => st.challenges
  }

  // ---------- what a target's owner is answered ----------

  /** Only the owner of the target, proved through the target while it is live, gets any further. */
  ghost predicate GateLaw(st: State, e: Event, r: Response, st': State)
    requires e.input.Decide? || e.input.ChangePermissions? || e.input.HandControl?
  {
    var owns := OwnsTarget(st, e.input.id, e.input.user);
    && Confined(st, e, r, st')
    && (r == Fail(404, SessionNotFound) <==> !owns)
    && (r == Fail(403, TargetProofRequired) <==> owns && !OwnerActs(st, e, e.input.id))
  }

  /** The owner may give this list: proper, within the request, and no second hand on the controls. */
  predicate MayGive(st: State, id: Id, grant: seq<Permission>)
    requires id in st.sessions
  {
    && IsProper(grant) && AllIn(grant, st.sessions[id].requested)
    && !(HoldsInput(grant) && Contended(st, id))
  }

  /** The record that a change leaves: just the list given, or an end if the list is empty. */
  function ChangedTo(v: SessionRec, grant: seq<Permission>): SessionRec {
    if grant == [] then v.(state := Revoked, granted := [], epoch := v.epoch + 1)
    else v.(granted := grant, epoch := v.epoch + 1)
  }

  predicate OnChange(st: State, st': State, r: Response, user: Id, id: Id, grant: seq<Permission>, now: Time)
    requires id in st.sessions
  {
    var v := st.sessions[id];
    && (r.SessionOut? <==> v.state == Active && (grant == [] || MayGive(st, id, grant)))
    && (r.SessionOut? ==>
          Becomes(st, st', r, id, ChangedTo(v, grant),
                  Audit(user, SessionEvent(if grant == [] then Ended(Revoked) else PermissionsChanged), id, now)))
    && (r == Fail(409, NotActive) <==> v.state != Active)
    && (r == Fail(400, InvalidPermissions) <==>
          v.state == Active && grant != [] && !(IsProper(grant) && AllIn(grant, v.requested)))
    && (r.SessionOut? || r == Fail(409, NotActive) || r == Fail(400, InvalidPermissions)
        || r == Fail(409, ControllerPresent))
  }

  ghost predicate ChangeLaw(st: State, e: Event, r: Response, st': State)
    requires e.input.ChangePermissions?
  {
    var i := e.input;
    && GateLaw(st, e, r, st')
    && (OwnerActs(st, e, i.id) ==> OnChange(st, st', r, i.user, i.id, i.grant, e.now))
  }

  /** The record that a decision leaves: active with just the list given, or rejected. */
  function DecidedTo(v: SessionRec, approve: bool, grant: seq<Permission>, now: Time): SessionRec {
    if !approve then v.(state := Rejected, granted := [], epoch := v.epoch + 1)
    else v.(state := Active, granted := grant, expires := now + 8 * HOUR, epoch := v.epoch + 1)
  }

  predicate OnDecision(st: State, st': State, r: Response, user: Id, id: Id, approve: bool, grant: seq<Permission>,
                       now: Time)
    requires id in st.sessions
  {
    var v := st.sessions[id];
    && (r.SessionOut? <==> v.state == Pending && (!approve || MayGive(st, id, grant)))
    && (r.SessionOut? ==>
          Becomes(st, st', r, id, DecidedTo(v, approve, grant, now),
                  Audit(user, SessionEvent(if approve then Approved else Ended(Rejected)), id, now)))
    && (r == Fail(409, NotPending) <==> v.state != Pending)
    && (r == Fail(400, NotSubset) <==>
          v.state == Pending && approve && !(IsProper(grant) && AllIn(grant, v.requested)))
    && (r.SessionOut? || r == Fail(409, NotPending) || r == Fail(400, NotSubset) || r == Fail(409, ControllerPresent))
  }

  ghost predicate DecideLaw(st: State, e: Event, r: Response, st': State)
    requires e.input.Decide?
  {
    var i := e.input;
    && GateLaw(st, e, r, st')
    && (OwnerActs(st, e, i.id) ==> OnDecision(st, st', r, i.user, i.id, i.approve, i.grant, e.now))
  }

  /** Nothing of the record is other than before but the grant, and the epoch is one further. */
  predicate Regranted(v: SessionRec, v': SessionRec) {
    v' == v.(granted := v'.granted, epoch := v.epoch + 1)
  }

  /** What a handover makes of one session: the one it goes to gains what it requested of mouse and
      keyboard, its rivals lose the two, and no other changes. */
  ghost predicate Handed(v: SessionRec, v': SessionRec, winner: bool, rival: bool) {
    if winner then
      && Regranted(v, v')
      && forall p :: p in v'.granted <==> p in v.granted || ((p == Mouse || p == Keyboard) && p in v.requested)
    else if rival then
      Regranted(v, v') && forall p :: p in v'.granted <==> p in v.granted && p != Mouse && p != Keyboard
    else v' == v
  }

  ghost predicate HandsOver(st: State, st': State, id: Id)
    requires id in st.sessions
  {
    && st'.sessions.Keys == st.sessions.Keys
    && forall x :: x in st.sessions ==>
         Handed(st.sessions[x], st'.sessions[x], x == id,
                st.sessions[x].target == st.sessions[id].target && st.sessions[x].state == Active)
  }

  ghost predicate OnHandover(st: State, st': State, r: Response, user: Id, id: Id, now: Time)
    requires id in st.sessions
  {
    var v := st.sessions[id];
    && (r.SessionOut? <==> v.state == Active && HoldsInput(v.requested))
    && (r.SessionOut? ==>
          && HandsOver(st, st', id) && r == SessionOut(200, st'.sessions[id])
          && st'.history == st.history + [Audit(user, SessionEvent(ControlHandover), id, now)])
    && (r.SessionOut? || r == Fail(409, NoControlRequested))
  }

  ghost predicate HandoverLaw(st: State, e: Event, r: Response, st': State)
    requires e.input.HandControl?
  {
    var i := e.input;
    && GateLaw(st, e, r, st')
    && (OwnerActs(st, e, i.id) ==> OnHandover(st, st', r, i.user, i.id, e.now))
  }

  // ---------- what a party is answered ----------

  ghost predicate StopLaw(st: State, e: Event, r: Response, st': State)
    requires e.input.StopSession?
  {
    var id, user := e.input.id, e.input.user;
    var party := id in st.sessions && PartyTo(st, st.sessions[id], user);
    && Confined(st, e, r, st')
    && (r.SessionOut? <==> party)
    && (r.Fail? ==> r == Fail(404, SessionNotFound))
    && (party ==>
          var v := st.sessions[id];
          if v.state == Pending || v.state == Active then
            Becomes(st, st', r, id, v.(state := Closed, granted := [], epoch := v.epoch + 1),
                    Audit(user, SessionEvent(Ended(Closed)), id, e.now))
          else st' == st && r == SessionOut(200, v))
  }

  // ---------- what an operator is answered ----------

  /** The user's sessions that are pending or active. */
  function OpenSessions(st: State, user: Id): set<Id> {
    set x | x in st.sessions && st.sessions[x].operator == user
            && (st.sessions[x].state == Pending || st.sessions[x].state == Active)
  }

  predicate Joins(st: State, user: Id, source: Id, target: Id, now: Time) {
    Live(st, source, now) && st.devices[source].owner == user && Live(st, target, now) && source != target
  }

  /** The proof is good under the key of the source. */
  predicate Proved(st: State, e: Event)
    requires e.input.RequestSession? && e.input.source in st.devices
  {
    ProofOk(st, e.input.user, st.devices[e.input.source].key, e.input.proof, e.now)
  }

  predicate HasOneTo(st: State, user: Id, target: Id) {
    exists x :: x in OpenSessions(st, user) && st.sessions[x].target == target
  }

  /** A new session: pending for two minutes, without a grant, with the keys its devices have now. */
  function Proposal(st: State, i: Input, now: Time): SessionRec
    requires i.RequestSession? && i.source in st.devices && i.target in st.devices
  {
    SessionRec(i.newId, i.user, i.source, i.target, Pending, i.grant, [], now, now + 2 * MINUTE, 1,
               st.devices[i.source].key, st.devices[i.target].key)
  }

  predicate OnRequest(st: State, st': State, r: Response, i: Input, now: Time)
    requires i.RequestSession? && i.source in st.devices && i.target in st.devices
  {
    var proper, double, many := IsProper(i.grant), HasOneTo(st, i.user, i.target), |OpenSessions(st, i.user)| >= 10;
    && (r.SessionOut? <==> proper && !double && !many)
    && (r.SessionOut? ==>
          && r == SessionOut(201, Proposal(st, i, now)) && st'.sessions == st.sessions[i.newId := Proposal(st, i, now)]
          && st'.history == st.history + [Audit(i.user, SessionEvent(SessionKind.Requested), i.newId, now)])
    && (r == Fail(400, InvalidPermissions) <==> !proper)
    && (r == Fail(409, DuplicateSession) <==> proper && double)
    && (r == Fail(409, SessionLimit) <==> proper && !double && many)
  }

  ghost predicate RequestLaw(st: State, e: Event, r: Response, st': State)
    requires e.input.RequestSession?
  {
    var i := e.input;
    var joins := Joins(st, i.user, i.source, i.target, e.now);
    var proved := joins && Proved(st, e);
    && Confined(st, e, r, st')
    && (r == Fail(404, DevicesUnavailable) <==> !joins)
    && (r == Fail(403, SourceProofRequired) <==> joins && !proved)
    && (proved ==> OnRequest(st, st', r, i, e.now))
  }

  // ---------- section by section ----------

  lemma ProperIsValid(grant: seq<Permission>)
    ensures IsProper(grant) <==> ValidGrant(grant)
  {
  }

  lemma ContendedIsBusy(st: State, id: Id)
    requires id in st.sessions
    ensures Contended(st, id) <==> ControllerBusy(st.sessions, id)
  {
    if Contended(st, id) {
      var x :| x in st.sessions && x != id && st.sessions[x].target == st.sessions[id].target
               && st.sessions[x].state == Active && HoldsInput(st.sessions[x].granted);
      assert YieldsTo(st.sessions, x, id) && Controls(st.sessions[x].granted);
    }
    if x :| x in st.sessions && YieldsTo(st.sessions, x, id) && Controls(st.sessions[x].granted) {
      assert HoldsInput(st.sessions[x].granted);
    }
  }

  lemma GateIsLawful(st: State, e: Event)
    requires (e.input.Decide? || e.input.ChangePermissions? || e.input.HandControl?) && TargetsExist(st)
    ensures var i := e.input;
            var g := TargetGate(st, i.user, i.proof, i.id, e.now);
            && (g.Pass? <==> OwnerActs(st, e, i.id))
            && (g.Stop? ==> g.reason == if OwnsTarget(st, i.id, i.user) then TargetProofRequired else SessionNotFound)
            && (g.Stop? ==> g.code == if OwnsTarget(st, i.id, i.user) then 403 else 404)
  {
  }

  lemma GateSpendsIfChecked(st: State, e: Event)
    requires (e.input.Decide? || e.input.ChangePermissions? || e.input.HandControl?) && TargetsExist(st)
    ensures var i := e.input;
            TargetGate(st, i.user, i.proof, i.id, e.now).st ==
            match Checked(st, e) case Some(p) => Spend(st, p.nonce) case None => st
  {
    var i := e.input;
    assert Checked(st, e) == CheckedByTarget(st, i.user, i.proof, i.id, e.now);
  }

  predicate IsRuling(o: Outcome, st: State) {
    o.base == st && (o.reply.SessionOut? || (o.reply.Fail? && o.effect == Quiet && o.tail == []))
  }

  lemma RulingIsConfined(st: State, e: Event, o: Outcome)
    requires o.reply.SessionOut? || (o.reply.Fail? && o.effect == Quiet && o.tail == [])
    requires o.base == match Checked(st, e) case Some(p) => Spend(st, p.nonce) case None => st
    ensures Confined(st, e, o.reply, Commit(o, e.now))
  {
  }

  /** What the gate lets through is confined, if what comes after it is. */
  lemma ThroughTheGate(st: State, e: Event, o: Outcome)
    requires (e.input.Decide? || e.input.ChangePermissions? || e.input.HandControl?) && TargetsExist(st)
    requires var g := TargetGate(st, e.input.user, e.input.proof, e.input.id, e.now);
             && IsRuling(o, g.st) && (g.Stop? ==> o.reply == Fail(g.code, g.reason))
             && (g.Pass? ==> o.reply != Fail(404, SessionNotFound) && o.reply != Fail(403, TargetProofRequired))
    ensures GateLaw(st, e, o.reply, Commit(o, e.now))
  {
    GateIsLawful(st, e);
    GateSpendsIfChecked(st, e);
    RulingIsConfined(st, e, o);
  }

  lemma MayGiveOrNot(st: State, id: Id, grant: seq<Permission>)
    requires id in st.sessions
    ensures IsProper(grant) && AllIn(grant, st.sessions[id].requested) <==>
            ValidGrant(grant) && Within(grant, st.sessions[id].requested)
    ensures HoldsInput(grant) && Contended(st, id) <==> Controls(grant) && ControllerBusy(st.sessions, id)
  {
    ProperIsValid(grant);
    ContendedIsBusy(st, id);
  }

  /** An effect that changes one session, answered with it. */
  lemma AnswerBecomes(st: State, f: Effect, id: Id, v: SessionRec, e: Audit, now: Time)
    requires id in st.sessions && ApplyEffect(st.devices, st.sessions, f) == st.sessions[id := v]
    requires Events(st.devices, st.sessions, f, now) == [e]
    ensures var o := Answer(st, f, id); Becomes(st, Commit(o, now), o.reply, id, v, e) && IsRuling(o, st)
  {
    assert st.history + [e] + [] == st.history + [e];
  }

  lemma ChangeOnIsLawful(st: State, user: Id, id: Id, grant: seq<Permission>, now: Time)
    requires id in st.sessions
    ensures var o := ChangeOn(st, user, id, grant);
            IsRuling(o, st) && OnChange(st, Commit(o, now), o.reply, user, id, grant, now)
  {
    var v := st.sessions[id];
    MayGiveOrNot(st, id, grant);
    if v.state == Active && grant == [] {
      AnswerBecomes(st, EndOne(id, Revoked, user), id, ChangedTo(v, grant),
                    Audit(user, SessionEvent(Ended(Revoked)), id, now), now);
    } else if v.state == Active && MayGive(st, id, grant) {
      AnswerBecomes(st, Regrant(id, grant, user), id, ChangedTo(v, grant),
                    Audit(user, SessionEvent(PermissionsChanged), id, now), now);
    }
  }

  lemma DecideOnIsLawful(st: State, user: Id, id: Id, approve: bool, grant: seq<Permission>, now: Time)
    requires id in st.sessions
    ensures var o := DecideOn(st, user, id, approve, grant, now);
            IsRuling(o, st) && OnDecision(st, Commit(o, now), o.reply, user, id, approve, grant, now)
  {
    var v := st.sessions[id];
    MayGiveOrNot(st, id, grant);
    if v.state == Pending && !approve {
      AnswerBecomes(st, EndOne(id, Rejected, user), id, DecidedTo(v, approve, grant, now),
                    Audit(user, SessionEvent(Ended(Rejected)), id, now), now);
    } else if v.state == Pending && MayGive(st, id, grant) {
      AnswerBecomes(st, Approve(id, grant, now + SESSION_LIFETIME, user), id, DecidedTo(v, approve, grant, now),
                    Audit(user, SessionEvent(Approved), id, now), now);
    }
  }

  lemma HandoverToIsLawful(st: State, user: Id, id: Id, now: Time)
    requires id in st.sessions
    ensures var o := HandoverTo(st, user, id);
            IsRuling(o, st) && OnHandover(st, Commit(o, now), o.reply, user, id, now)
  {
    var o := HandoverTo(st, user, id);
    if o.reply.SessionOut? {
      HandoverHandsOver(st, id, user);
      assert st.history + Events(st.devices, st.sessions, o.effect, now) + [] ==
             st.history + [Audit(user, SessionEvent(ControlHandover), id, now)];
    }
  }

  lemma HandoverHandsOver(st: State, id: Id, user: Id)
    requires id in st.sessions
    ensures HandsOver(st, st.(sessions := ApplyEffect(st.devices, st.sessions, Handover(id, user))), id)
  {
    var after := ApplyEffect(st.devices, st.sessions, Handover(id, user));
    forall x | x in st.sessions
      ensures Handed(st.sessions[x], after[x], x == id,
                     st.sessions[x].target == st.sessions[id].target && st.sessions[x].state == Active)
    {
      WithControlAdds(st.sessions[x].granted, st.sessions[x].requested);
      WithoutControlKeeps(st.sessions[x].granted);
    }
  }

  lemma ChangeIsLawful(st: State, e: Event)
    requires e.input.ChangePermissions? && TargetsExist(st)
    ensures var i := e.input;
            var o := PlanChange(st, i.user, i.proof, i.id, i.grant, e.now);
            ChangeLaw(st, e, o.reply, Commit(o, e.now))
  {
    var i := e.input;
    var o := PlanChange(st, i.user, i.proof, i.id, i.grant, e.now);
    GateIsLawful(st, e);
    var g := TargetGate(st, i.user, i.proof, i.id, e.now);
    if g.Pass? {
      ChangeOnIsLawful(g.st, i.user, i.id, i.grant, e.now);
    }
    ThroughTheGate(st, e, o);
  }

  lemma DecideIsLawful(st: State, e: Event)
    requires e.input.Decide? && TargetsExist(st)
    ensures var i := e.input;
            var o := PlanDecide(st, i.user, i.proof, i.id, i.approve, i.grant, e.now);
            DecideLaw(st, e, o.reply, Commit(o, e.now))
  {
    var i := e.input;
    var o := PlanDecide(st, i.user, i.proof, i.id, i.approve, i.grant, e.now);
    GateIsLawful(st, e);
    var g := TargetGate(st, i.user, i.proof, i.id, e.now);
    if g.Pass? {
      DecideOnIsLawful(g.st, i.user, i.id, i.approve, i.grant, e.now);
    }
    ThroughTheGate(st, e, o);
  }

  lemma HandoverIsLawful(st: State, e: Event)
    requires e.input.HandControl? && TargetsExist(st)
    ensures var o := PlanHandover(st, e.input.user, e.input.proof, e.input.id, e.now);
            HandoverLaw(st, e, o.reply, Commit(o, e.now))
  {
    var i := e.input;
    var o := PlanHandover(st, i.user, i.proof, i.id, e.now);
    GateIsLawful(st, e);
    var g := TargetGate(st, i.user, i.proof, i.id, e.now);
    if g.Pass? {
      HandoverToIsLawful(g.st, i.user, i.id, e.now);
    }
    ThroughTheGate(st, e, o);
  }

  lemma StopIsLawful(st: State, e: Event)
    requires e.input.StopSession?
    ensures var o := PlanStop(st, e.input.user, e.input.id); StopLaw(st, e, o.reply, Commit(o, e.now))
  {
    var id, user := e.input.id, e.input.user;
    var o := PlanStop(st, user, id);
    if id in st.sessions && PartyTo(st, st.sessions[id], user) {
      var v := st.sessions[id];
      assert st.history + [] + [] == st.history;
      if Open(v) {
        AnswerBecomes(st, EndOne(id, Closed, user), id, v.(state := Closed, granted := [], epoch := v.epoch + 1),
                      Audit(user, SessionEvent(Ended(Closed)), id, e.now), e.now);
      }
    }
    RulingIsConfined(st, e, o);
  }

  lemma ProposeIsLawful(st: State, i: Input, now: Time)
    requires i.RequestSession? && i.source in st.devices && i.target in st.devices
    ensures var o := Propose(st, i.user, i.source, i.target, i.grant, i.newId, now);
            IsRuling(o, st) && OnRequest(st, Commit(o, now), o.reply, i, now)
  {
    ProperIsValid(i.grant);
    OpenSessionsAre(st, i.user, i.target);
    var v := Proposal(st, i, now);
    assert st.history + [Audit(v.operator, SessionEvent(SessionKind.Requested), v.id, now)] + [] ==
           st.history + [Audit(v.operator, SessionEvent(SessionKind.Requested), v.id, now)];
  }

  lemma OpenSessionsAre(st: State, user: Id, target: Id)
    ensures OpenSessions(st, user) == OpenOf(st.sessions, user)
    ensures HasOneTo(st, user, target) <==> HasOpenTo(st.sessions, user, target)
  {
    assert OpenSessions(st, user) == OpenOf(st.sessions, user);
  }

  lemma RequestStages(st: State, e: Event)
    requires e.input.RequestSession?
    ensures var i := e.input;
            var o := PlanRequest(st, i.user, i.proof, i.source, i.target, i.grant, i.newId, e.now);
            var joins := Joins(st, i.user, i.source, i.target, e.now);
            && (!joins ==> o == Refuse(st, 404, DevicesUnavailable) && Checked(st, e).None?)
            && (joins && !Proved(st, e) ==> o == Refuse(Spend(st, i.proof.nonce), 403, SourceProofRequired))
            && (joins && Proved(st, e) ==>
                  o == Propose(Spend(st, i.proof.nonce), i.user, i.source, i.target, i.grant, i.newId, e.now))
            && (joins ==> Checked(st, e) == Some(i.proof))
  {
  }

  lemma SpendingIsNoMatter(st: State, nonce: string, st': State, r: Response, i: Input, now: Time)
    requires i.RequestSession? && i.source in st.devices && i.target in st.devices
    requires OnRequest(Spend(st, nonce), st', r, i, now)
    ensures OnRequest(st, st', r, i, now)
  {
    assert OpenSessions(Spend(st, nonce), i.user) == OpenSessions(st, i.user);
  }

  lemma RequestIsLawful(st: State, e: Event)
    requires e.input.RequestSession?
    ensures var i := e.input;
            var o := PlanRequest(st, i.user, i.proof, i.source, i.target, i.grant, i.newId, e.now);
            RequestLaw(st, e, o.reply, Commit(o, e.now))
  {
    var i := e.input;
    var o := PlanRequest(st, i.user, i.proof, i.source, i.target, i.grant, i.newId, e.now);
    RequestStages(st, e);
    if Joins(st, i.user, i.source, i.target, e.now) && Proved(st, e) {
      ProposeIsLawful(Spend(st, i.proof.nonce), i, e.now);
      SpendingIsNoMatter(st, i.proof.nonce, Commit(o, e.now), o.reply, i, e.now);
    }
    RulingIsConfined(st, e, o);
  }

  // ---------- in any run ----------

  /** In any run: a request to change a grant is answered with the session exactly if the target's owner
      proves presence, the session is active, and the list is empty or may be given. The stored grant is
      then the list itself, or the session is revoked. */
  lemma ChangeIsExact(ws: seq<World>, es: seq<Event>, purge: bool, n: nat)
    requires IsRun(ws, es, purge) && n < |es| && es[n].input.ChangePermissions?
    ensures ChangeLaw(ws[n].st, es[n], Reply(ws[n], es[n], purge), ws[n + 1].st)
  {
    var i := es[n].input;
    assert Plan(ws[n].st, es[n], purge) == PlanChange(ws[n].st, i.user, i.proof, i.id, i.grant, es[n].now);
    ChangeIsLawful(ws[n].st, es[n]);
  }

  /** In any run: a decision is answered with the session exactly if the target's owner proves presence,
      the session is pending, and it is a refusal or the list may be given. The session is then rejected,
      or active for eight hours with just that list. */
  lemma DecideIsExact(ws: seq<World>, es: seq<Event>, purge: bool, n: nat)
    requires IsRun(ws, es, purge) && n < |es| && es[n].input.Decide?
    ensures DecideLaw(ws[n].st, es[n], Reply(ws[n], es[n], purge), ws[n + 1].st)
  {
    var i := es[n].input;
    assert Plan(ws[n].st, es[n], purge) ==
           PlanDecide(ws[n].st, i.user, i.proof, i.id, i.approve, i.grant, es[n].now);
    DecideIsLawful(ws[n].st, es[n]);
  }

  /** In any run: an accepted handover takes mouse and keyboard from the other active sessions of the target,
      gives this one what it requested of them, and changes nothing else of any session. */
  lemma HandoverChangesExactly(ws: seq<World>, es: seq<Event>, purge: bool, n: nat)
    requires IsRun(ws, es, purge) && n < |es| && es[n].input.HandControl?
    ensures HandoverLaw(ws[n].st, es[n], Reply(ws[n], es[n], purge), ws[n + 1].st)
  {
    var i := es[n].input;
    assert Plan(ws[n].st, es[n], purge) == PlanHandover(ws[n].st, i.user, i.proof, i.id, es[n].now);
    HandoverIsLawful(ws[n].st, es[n]);
  }

  /** In any run: a stop is answered with the session exactly if its operator or the owner of its target
      asks. An open one is then closed, an ended one as it was. */
  lemma StopIsExact(ws: seq<World>, es: seq<Event>, purge: bool, n: nat)
    requires IsRun(ws, es, purge) && n < |es| && es[n].input.StopSession?
    ensures StopLaw(ws[n].st, es[n], Reply(ws[n], es[n], purge), ws[n + 1].st)
  {
    assert Plan(ws[n].st, es[n], purge) == PlanStop(ws[n].st, es[n].input.user, es[n].input.id);
    StopIsLawful(ws[n].st, es[n]);
  }

  /** In any run: a session comes about exactly if its operator proves presence through a live device of
      its own, the target is another live device, the list is proper, and no more than nine open sessions,
      none to this target, are the operator's. */
  lemma RequestIsExact(ws: seq<World>, es: seq<Event>, purge: bool, n: nat)
    requires IsRun(ws, es, purge) && n < |es| && es[n].input.RequestSession?
    ensures RequestLaw(ws[n].st, es[n], Reply(ws[n], es[n], purge), ws[n + 1].st)
  {
    var i := es[n].input;
    assert Plan(ws[n].st, es[n], purge) ==
           PlanRequest(ws[n].st, i.user, i.proof, i.source, i.target, i.grant, i.newId, es[n].now);
    RequestIsLawful(ws[n].st, es[n]);
  }
}
