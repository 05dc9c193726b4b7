/** The handlers of server/internal/platform/service.go, auth.go and ice.go. Each is one critical
    section under the mutex, with one clock reading; it does what its plan in Model says. */
module Platform {
  import opened Wrappers
  import opened Types
  import opened Permissions
  import opened AuditLog
  import opened Token
  import opened Model
  import opened Records
  import opened Endings
  import opened Changes

  class Service {
    const key: string
    const iceUrls: seq<string>
    var accounts: map<Id, AccountRec>
    var emails: map<string, Id>
    var refresh: map<Digest, RefreshRec>
    var devices: map<Id, Device>
    var sessions: map<Id, Session>
    var challenges: map<string, Challenge>
    var peers: set<Id>
    var rates: map<string, Rate>
    var audit: seq<Audit>
    /** Every event ever recorded. */
    ghost var history: seq<Audit>

    /** The audit slice is the end of the history, records are stored under their names, and the
        lookups made without a check have something to find. */
    ghost predicate Valid()
      reads this
    {
      && Logged() && Named(sessions) && Distinct(devices)
      && (forall id :: id in sessions ==> sessions[id].target in devices)
      && (forall d :: d in refresh ==> refresh[d].user in accounts)
      && (forall id :: id in accounts ==> accounts[id].id == id)
    }

    ghost predicate Logged()
      reads this`audit, this`history
    {
      audit == Last(history, AUDIT_CAPACITY)
    }

    ghost function Abs(): (st: State)
      reads this, devices.Values, sessions.Values
      requires Valid()
      ensures OwnersExist(st) && TargetsExist(st) && UniqueKeys(st.devices)
    {
      State(accounts, emails, refresh, DeviceRecs(devices), SessionRecs(sessions), challenges, peers, rates, iceUrls,
            key, history)
    }

    constructor (key: string, iceUrls: seq<string>)
      ensures Valid() && Abs() == Empty(key, iceUrls)
    {
      this.key, this.iceUrls := key, iceUrls;
      accounts, emails, refresh, devices, sessions := map[], map[], map[], map[], map[];
      challenges, peers, rates, audit, history := map[], {}, map[], [], [];
    }

    method Record(e: Audit)
      requires Logged()
      modifies this`audit, this`history
      ensures Logged() && history == old(history) + [e]
      ensures SessionRecs(sessions) == old(SessionRecs(sessions))
      ensures DeviceRecs(devices) == old(DeviceRecs(devices))
    {
      LastAppend(history, e, AUDIT_CAPACITY);
      audit := audit + [e];
      history := history + [e];
      if |audit| > AUDIT_CAPACITY {
        audit := audit[|audit| - AUDIT_CAPACITY..];
      }
    }

    // ---------- ending sessions ----------

    method End(v: Session, final: SessionState, actor: Id, now: Time)
      requires Logged()
      modifies v, this`audit, this`history
      ensures Logged() && v.Rec() == Finish(old(v.Rec()), final)
      ensures history == old(history) + [Audit(actor, SessionEvent(Ended(final)), v.id, now)]
    {
      v.state := final;
      v.granted := [];
      v.epoch := v.epoch + 1;
      Record(Audit(actor, SessionEvent(Ended(final)), v.id, now));
    }

    method IsVisible(v: Session, user: Id, ghost known: map<Id, DeviceRec>) returns (r: bool)
      requires Owns(devices, known)
      ensures r <==> Visible(known, v.Rec(), user)
    {
      r := v.operator == user || (v.target in devices && devices[v.target].owner == user);
    }

    /** The test of the loops of expire, invalidate and revokeDevice. */
    method IsHit(which: Which, v: Session, ghost known: map<Id, DeviceRec>) returns (r: bool)
      requires Owns(devices, known)
      ensures r <==> Hit(known, which, v.Rec())
    {
      r := v.state == Pending || v.state == Active;
      if r {
        match which
        case Overdue(at) => r := at >= v.expires;
        case VisibleTo(user) => r := IsVisible(v, user, known);
        case OnDevice(device) => r := v.source == device || v.target == device;
      }
    }

    ghost function Book(): Books
      reads this, sessions.Values
    {
      Books(SessionRecs(sessions), history)
    }

    method EndIfHit(which: Which, ghost known: map<Id, DeviceRec>, id: Id, final: SessionState, actor: Id, now: Time)
      requires Logged() && Named(sessions) && id in sessions && Owns(devices, known)
      modifies sessions.Values, this`audit, this`history
      ensures Logged() && Book() == FinishAt(old(Book()), known, which, id, final, actor, now)
    {
      ghost var was := SessionRecs(sessions);
      var matched := IsHit(which, sessions[id], known);
      if matched {
        End(sessions[id], final, actor, now);
        OneSession(sessions, was, id);
      }
    }

    /** The loop by which expire, invalidate and revokeDevice end sessions, in the order in which the
        map yields them. */
    method EndEach(which: Which, ghost known: map<Id, DeviceRec>, order: seq<Id>, final: SessionState, actor: Id,
                   now: Time)
      requires Logged() && Named(sessions) && Owns(devices, known)
      requires forall k :: 0 <= k < |order| ==> order[k] in sessions
      modifies sessions.Values, this`audit, this`history
      ensures Logged() && Book() == FinishFirst(old(Book()), known, which, order, |order|, final, actor, now)
    {
      var i := 0;
      while i < |order|
        invariant i <= |order| && Logged()
        invariant Book() == FinishFirst(old(Book()), known, which, order, i, final, actor, now)
      {
        EndIfHit(which, known, order[i], final, actor, now);
        i := i + 1;
      }
    }

    method EndAll(which: Which, order: seq<Id>, final: SessionState, actor: Id, now: Time)
      requires Logged() && Named(sessions) && IsOrder(order, sessions.Keys)
      modifies sessions.Values, this`audit, this`history
      ensures Logged() && DeviceRecs(devices) == old(DeviceRecs(devices))
      ensures SessionRecs(sessions) ==
              old(ApplyEffect(DeviceRecs(devices), SessionRecs(sessions), EndWhere(which, final, actor, order)))
      ensures history ==
              old(history + EndEvents(DeviceRecs(devices), SessionRecs(sessions), which, final, actor, order, now))
    {
      ghost var b, known := Book(), DeviceRecs(devices);
      EndEach(which, known, order, final, actor, now);
      SameDevices(devices, known);
      AllFinished(known, which, b, order, final, actor, now);
    }

    // ---------- device proofs ----------

    method NewChallenge(user: Id, nonce: string, now: Time) returns (reply: Response)
      requires Valid()
      modifies this`challenges
      ensures Valid() && Abs() == Commit(old(PlanNewChallenge(Abs(), user, nonce, now)), now)
      ensures reply == old(PlanNewChallenge(Abs(), user, nonce, now)).reply
    {
      challenges := challenges[nonce := Challenge(user, now + CHALLENGE_LIFETIME)];
      assert SessionRecs(sessions) == old(SessionRecs(sessions));
      assert DeviceRecs(devices) == old(DeviceRecs(devices));
      assert history + [] + [] == history;
      return NonceOut(nonce);
    }

    method CheckProof(user: Id, key: string, p: Proof, now: Time) returns (ok: bool)
      requires Valid()
      modifies this`challenges
      ensures Valid() && Abs() == Spend(old(Abs()), p.nonce)
      ensures ok <==> old(ProofOk(Abs(), user, key, p, now))
    {
      var found := p.nonce in challenges;
      var c := if found then challenges[p.nonce] else Challenge("", ZERO_TIME);
      challenges := challenges - {p.nonce};
      assert SessionRecs(sessions) == old(SessionRecs(sessions));
      assert DeviceRecs(devices) == old(DeviceRecs(devices));
      if !found || c.user != user || now >= c.expires {
        return false;
      }
      return VerifyDevice(key, p.signature, p.method_, p.path, p.nonce);
    }

    method IsLive(id: Id, now: Time) returns (r: bool)
      requires Valid()
      ensures r <==> Live(Abs(), id, now)
    {
      r := id in devices && !devices[id].revoked && id in peers && now - devices[id].lastSeen < LIVENESS;
    }

    /** targetSession: the failure it answers, or none. */
    method TargetSession(user: Id, p: Proof, id: Id, now: Time) returns (stop: Option<Response>)
      requires Valid()
      modifies this`challenges
      ensures Valid() && Abs() == old(TargetGate(Abs(), user, p, id, now)).st
      ensures stop == match old(TargetGate(Abs(), user, p, id, now))
                      case Pass(_) => None
                      case Stop(_, code, reason) => Some(Fail(code, reason))
    {
      if id !in sessions || devices[sessions[id].target].owner != user {
        return Some(Fail(404, SessionNotFound));
      }
      var target := sessions[id].target;
      var live := IsLive(target, now);
      if !live {
        return Some(Fail(403, TargetProofRequired));
      }
      var ok := CheckProof(user, devices[target].key, p, now);
      return if ok then None else Some(Fail(403, TargetProofRequired));
    }

    // ---------- sessions ----------

    method ControllerIsBusy(v: Session) returns (busy: bool)
      requires Named(sessions) && v.id in sessions && sessions[v.id] == v
      ensures busy <==> ControllerBusy(SessionRecs(sessions), v.id)
    {
      var todo := sessions.Keys;
      while todo != {}
        invariant todo <= sessions.Keys
        invariant forall id :: id in sessions && id !in todo ==>
          !(YieldsTo(SessionRecs(sessions), id, v.id) && Controls(sessions[id].Rec().granted))
        decreases |todo|
      {
        var id :| id in todo;
        todo := todo - {id};
        var other := sessions[id];
        var control := HasControl(other.granted);
        assert SessionRecs(sessions)[id] == other.Rec() && SessionRecs(sessions)[v.id] == v.Rec();
        if other.id != v.id && other.target == v.target && other.state == Active && control {
          assert YieldsTo(SessionRecs(sessions), id, v.id);
          return true;
        }
      }
      return false;
    }

    method DecideSession(user: Id, p: Proof, id: Id, approve: bool, grant: seq<Permission>, now: Time)
        returns (reply: Response)
      requires Valid()
      modifies this`challenges, this`audit, this`history, sessions.Values
      ensures Valid() && Abs() == Commit(old(PlanDecide(Abs(), user, p, id, approve, grant, now)), now)
      ensures reply == old(PlanDecide(Abs(), user, p, id, approve, grant, now)).reply
    {
      var stop := TargetSession(user, p, id, now);
      NothingMore(Abs(), now);
      if stop.Some? {
        return stop.value;
      }
      reply := Decide(user, id, approve, grant, now);
    }

    method EndOneSession(id: Id, final: SessionState, user: Id, now: Time)
      requires Logged() && Named(sessions) && id in sessions
      modifies this`audit, this`history, sessions.Values
      ensures Logged() && DeviceRecs(devices) == old(DeviceRecs(devices))
      ensures SessionRecs(sessions) == old(SessionRecs(sessions)[id := Finish(sessions[id].Rec(), final)])
      ensures history == old(history) + [Audit(user, SessionEvent(Ended(final)), id, now)]
    {
      ghost var was, known := SessionRecs(sessions), DeviceRecs(devices);
      End(sessions[id], final, user, now);
      OneSession(sessions, was, id);
      SameDevices(devices, known);
    }

    /** Ends the session and answers with it. */
    method EndAndAnswer(id: Id, final: SessionState, user: Id, now: Time) returns (reply: Response)
      requires Valid() && id in sessions
      modifies this`audit, this`history, sessions.Values
      ensures Valid() && Abs() == EndedOne(old(Abs()), id, final, user, now)
      ensures reply == SessionOut(200, Abs().sessions[id])
    {
      EndOneSession(id, final, user, now);
      return SessionOut(200, sessions[id].Rec());
    }

    method Activated(v: Session, grant: seq<Permission>, user: Id, now: Time)
      requires Logged()
      modifies v, this`audit, this`history
      ensures Logged() && v.Rec() == Activate(old(v.Rec()), grant, now + SESSION_LIFETIME)
      ensures history == old(history) + [Audit(user, SessionEvent(Approved), v.id, now)]
    {
      v.granted := grant;
      v.state := Active;
      v.expires := now + SESSION_LIFETIME;
      v.epoch := v.epoch + 1;
      Record(Audit(user, SessionEvent(Approved), v.id, now));
    }

    method ActivateSession(id: Id, grant: seq<Permission>, user: Id, now: Time)
      requires Logged() && Named(sessions) && id in sessions
      modifies this`audit, this`history, sessions.Values
      ensures Logged() && DeviceRecs(devices) == old(DeviceRecs(devices))
      ensures SessionRecs(sessions) ==
              old(SessionRecs(sessions)[id := Activate(sessions[id].Rec(), grant, now + SESSION_LIFETIME)])
      ensures history == old(history) + [Audit(user, SessionEvent(Approved), id, now)]
    {
      ghost var was, known := SessionRecs(sessions), DeviceRecs(devices);
      Activated(sessions[id], grant, user, now);
      OneSession(sessions, was, id);
      SameDevices(devices, known);
    }

    method ApproveAndAnswer(id: Id, grant: seq<Permission>, user: Id, now: Time) returns (reply: Response)
      requires Valid() && id in sessions
      modifies this`audit, this`history, sessions.Values
      ensures Valid() && Abs() == ApprovedOne(old(Abs()), id, grant, user, now)
      ensures reply == SessionOut(200, Abs().sessions[id])
    {
      ActivateSession(id, grant, user, now);
      return SessionOut(200, sessions[id].Rec());
    }

    /** The checks decideSession and changePermissions make before they set a grant. */
    method CheckGrant(v: Session, grant: seq<Permission>, invalid: Reason) returns (stop: Option<Response>)
      requires Named(sessions) && v.id in sessions && sessions[v.id] == v
      ensures stop == GrantStop(SessionRecs(sessions), v.id, grant, invalid)
    {
      var valid := ValidPermissions(grant);
      var within := Subset(grant, v.requested);
      if !valid || !within {
        return Some(Fail(400, invalid));
      }
      var control := HasControl(grant);
      var busy := ControllerIsBusy(v);
      return if control && busy then Some(Fail(409, ControllerPresent)) else None;
    }

    /** The rest of decideSession, once the target's owner has been proved present. */
    method Decide(user: Id, id: Id, approve: bool, grant: seq<Permission>, now: Time) returns (reply: Response)
      requires Valid() && id in sessions
      modifies this`audit, this`history, sessions.Values
      ensures Valid() && Abs() == Commit(old(DecideOn(Abs(), user, id, approve, grant, now)), now)
      ensures reply == old(DecideOn(Abs(), user, id, approve, grant, now)).reply
    {
      DecideOnCases(Abs(), user, id, approve, grant, now);
      var v := sessions[id];
      if v.state != Pending {
        NothingMore(Abs(), now);
        return Fail(409, NotPending);
      }
      if !approve {
        EndOneCommits(Abs(), id, Rejected, user, now);
        reply := EndAndAnswer(id, Rejected, user, now);
        return;
      }
      NothingMore(Abs(), now);
      ApproveCommits(Abs(), id, grant, user, now);
      reply := ApproveIfAllowed(id, grant, user, now);
    }

    method ApproveIfAllowed(id: Id, grant: seq<Permission>, user: Id, now: Time) returns (reply: Response)
      requires Valid() && id in sessions
      modifies this`audit, this`history, sessions.Values
      ensures Valid() && id in sessions
      ensures var stop := GrantStop(old(Abs()).sessions, id, grant, NotSubset);
              if stop.Some? then Abs() == old(Abs()) && reply == stop.value
              else
                && Abs() == ApprovedOne(old(Abs()), id, grant, user, now)
                && reply == SessionOut(200, Abs().sessions[id])
    {
      var stop := CheckGrant(sessions[id], grant, NotSubset);
      if stop.Some? {
        return stop.value;
      }
      reply := ApproveAndAnswer(id, grant, user, now);
    }

    method ChangePermissions(user: Id, p: Proof, id: Id, grant: seq<Permission>, now: Time) returns (reply: Response)
      requires Valid()
      modifies this`challenges, this`audit, this`history, sessions.Values
      ensures Valid() && Abs() == Commit(old(PlanChange(Abs(), user, p, id, grant, now)), now)
      ensures reply == old(PlanChange(Abs(), user, p, id, grant, now)).reply
    {
      var stop := TargetSession(user, p, id, now);
      NothingMore(Abs(), now);
      if stop.Some? {
        return stop.value;
      }
      reply := Change(user, id, grant, now);
    }

    method Regranted(v: Session, grant: seq<Permission>, user: Id, now: Time)
      requires Logged()
      modifies v, this`audit, this`history
      ensures Logged() && v.Rec() == Grant(old(v.Rec()), grant)
      ensures history == old(history) + [Audit(user, SessionEvent(PermissionsChanged), v.id, now)]
    {
      v.granted := grant;
      v.epoch := v.epoch + 1;
      Record(Audit(user, SessionEvent(PermissionsChanged), v.id, now));
    }

    method RegrantSession(id: Id, grant: seq<Permission>, user: Id, now: Time)
      requires Logged() && Named(sessions) && id in sessions
      modifies this`audit, this`history, sessions.Values
      ensures Logged() && DeviceRecs(devices) == old(DeviceRecs(devices))
      ensures SessionRecs(sessions) == old(SessionRecs(sessions)[id := Grant(sessions[id].Rec(), grant)])
      ensures history == old(history) + [Audit(user, SessionEvent(PermissionsChanged), id, now)]
    {
      ghost var was, known := SessionRecs(sessions), DeviceRecs(devices);
      Regranted(sessions[id], grant, user, now);
      OneSession(sessions, was, id);
      SameDevices(devices, known);
    }

    method RegrantAndAnswer(id: Id, grant: seq<Permission>, user: Id, now: Time) returns (reply: Response)
      requires Valid() && id in sessions
      modifies this`audit, this`history, sessions.Values
      ensures Valid() && Abs() == RegrantedOne(old(Abs()), id, grant, user, now)
      ensures reply == SessionOut(200, Abs().sessions[id])
    {
      RegrantSession(id, grant, user, now);
      return SessionOut(200, sessions[id].Rec());
    }

    /** The rest of changePermissions. */
    method Change(user: Id, id: Id, grant: seq<Permission>, now: Time) returns (reply: Response)
      requires Valid() && id in sessions
      modifies this`audit, this`history, sessions.Values
      ensures Valid() && Abs() == Commit(old(ChangeOn(Abs(), user, id, grant)), now)
      ensures reply == old(ChangeOn(Abs(), user, id, grant)).reply
    {
      ChangeOnCases(Abs(), user, id, grant);
      var v := sessions[id];
      if v.state != Active {
        NothingMore(Abs(), now);
        return Fail(409, NotActive);
      }
      if |grant| == 0 {
        EndOneCommits(Abs(), id, Revoked, user, now);
        reply := EndAndAnswer(id, Revoked, user, now);
        return;
      }
      NothingMore(Abs(), now);
      RegrantCommits(Abs(), id, grant, user, now);
      reply := RegrantIfAllowed(id, grant, user, now);
    }

    method RegrantIfAllowed(id: Id, grant: seq<Permission>, user: Id, now: Time) returns (reply: Response)
      requires Valid() && id in sessions
      modifies this`audit, this`history, sessions.Values
      ensures Valid() && id in sessions
      ensures var stop := GrantStop(old(Abs()).sessions, id, grant, InvalidPermissions);
              if stop.Some? then Abs() == old(Abs()) && reply == stop.value
              else
                && Abs() == RegrantedOne(old(Abs()), id, grant, user, now)
                && reply == SessionOut(200, Abs().sessions[id])
    {
      var stop := CheckGrant(sessions[id], grant, InvalidPermissions);
      if stop.Some? {
        return stop.value;
      }
      reply := RegrantAndAnswer(id, grant, user, now);
    }

    method StopSession(user: Id, id: Id, now: Time) returns (reply: Response)
      requires Valid()
      modifies this`audit, this`history, sessions.Values
      ensures Valid() && Abs() == Commit(old(PlanStop(Abs(), user, id)), now)
      ensures reply == old(PlanStop(Abs(), user, id)).reply
    {
      NothingMore(Abs(), now);
      if id !in sessions {
        return Fail(404, SessionNotFound);
      }
      var v := sessions[id];
      var seen := IsVisible(v, user, DeviceRecs(devices));
      if !seen {
        return Fail(404, SessionNotFound);
      }
      if v.state == Active || v.state == Pending {
        EndOneCommits(Abs(), id, Closed, user, now);
        reply := EndAndAnswer(id, Closed, user, now);
        return;
      }
      return SessionOut(200, v.Rec());
    }

    // ---------- requests ----------

    /** The loop of requestSession: whether the operator has an open session to the target already,
        and otherwise how many open ones. The answer does not depend on the order it meets them in. */
    method CountOpen(user: Id, target: Id) returns (duplicate: bool, count: nat)
      requires Named(sessions)
      ensures duplicate <==> HasOpenTo(SessionRecs(sessions), user, target)
      ensures !duplicate ==> count == |OpenOf(SessionRecs(sessions), user)|
    {
      var todo := sessions.Keys;
      ghost var recs := SessionRecs(sessions);
      ghost var counted: set<Id> := {};
      count := 0;
      while todo != {}
        invariant todo <= sessions.Keys && count == |counted|
        invariant counted == set id | id in OpenOf(recs, user) && id !in todo
        invariant forall id :: id in counted ==> recs[id].target != target
        decreases |todo|
      {
        var id :| id in todo;
        var v := sessions[id];
        assert recs[id] == v.Rec();
        if v.operator == user && (v.state == Pending || v.state == Active) {
          assert id in OpenOf(recs, user);
          count := count + 1;
          counted := counted + {id};
          if v.target == target {
            return true, count;
          }
        }
        todo := todo - {id};
      }
      assert counted == OpenOf(recs, user);
      return false, count;
    }

    method RequestSession(user: Id, p: Proof, source: Id, target: Id, grant: seq<Permission>, id: Id, now: Time)
        returns (reply: Response)
      requires Valid() && id !in sessions
      modifies this
      ensures Valid() && Abs() == Commit(old(PlanRequest(Abs(), user, p, source, target, grant, id, now)), now)
      ensures reply == old(PlanRequest(Abs(), user, p, source, target, grant, id, now)).reply
    {
      NothingMore(Abs(), now);
      var sourceLive := IsLive(source, now);
      var targetLive := IsLive(target, now);
      if !sourceLive || devices[source].owner != user || !targetLive || source == target {
        return Fail(404, DevicesUnavailable);
      }
      var ok := CheckProof(user, devices[source].key, p, now);
      NothingMore(Abs(), now);
      if !ok {
        return Fail(403, SourceProofRequired);
      }
      reply := Request(user, source, target, grant, id, now);
    }

    method CheckRequest(user: Id, target: Id, grant: seq<Permission>) returns (stop: Option<Response>)
      requires Named(sessions)
      ensures stop == RequestStop(SessionRecs(sessions), user, target, grant)
    {
      var valid := ValidPermissions(grant);
      if !valid {
        return Some(Fail(400, InvalidPermissions));
      }
      var duplicate, count := CountOpen(user, target);
      if duplicate {
        return Some(Fail(409, DuplicateSession));
      }
      return if count >= MAX_OPEN_SESSIONS then Some(Fail(409, SessionLimit)) else None;
    }

    /** The rest of requestSession, once the source has been proved present. */
    method Request(user: Id, source: Id, target: Id, grant: seq<Permission>, id: Id, now: Time)
        returns (reply: Response)
      requires Valid() && id !in sessions && source in devices && target in devices
      modifies this`sessions, this`audit, this`history
      ensures Valid() && Abs() == Commit(old(Propose(Abs(), user, source, target, grant, id, now)), now)
      ensures reply == old(Propose(Abs(), user, source, target, grant, id, now)).reply
    {
      NothingMore(Abs(), now);
      ProposeCases(Abs(), user, source, target, grant, id, now);
      var stop := CheckRequest(user, target, grant);
      if stop.Some? {
        return stop.value;
      }
      var v := SessionRec(id, user, source, target, Pending, grant, [], now, now + REQUEST_LIFETIME, 1,
                          devices[source].key, devices[target].key);
      CreateCommits(Abs(), v, now);
      reply := CreateAndAnswer(v, now);
    }

    method CreateAndAnswer(v: SessionRec, now: Time) returns (reply: Response)
      requires Valid() && v.id !in sessions && v.target in devices
      modifies this`sessions, this`audit, this`history
      ensures Valid() && Abs() == CreatedOne(old(Abs()), v, now)
      ensures reply == SessionOut(201, v)
    {
      Open(v);
      Record(Audit(v.operator, SessionEvent(Requested), v.id, now));
      return SessionOut(201, v);
    }

    method Open(v: SessionRec)
      requires Named(sessions) && v.id !in sessions
      modifies this`sessions
      ensures Named(sessions) && sessions.Keys == old(sessions).Keys + {v.id}
      ensures forall k :: k in old(sessions) ==> sessions[k] == old(sessions)[k]
      ensures sessions[v.id].Rec() == v && sessions[v.id].target == v.target
      ensures SessionRecs(sessions) == old(SessionRecs(sessions))[v.id := v]
      ensures DeviceRecs(devices) == old(DeviceRecs(devices))
    {
      ghost var was, known := SessionRecs(sessions), DeviceRecs(devices);
      var s := new Session(v);
      sessions := sessions[v.id := s];
      OneMoreSession(sessions, was, v.id);
      SameDevices(devices, known);
    }

    // ---------- handover ----------

    method HandoverSession(user: Id, p: Proof, id: Id, now: Time) returns (reply: Response)
      requires Valid()
      modifies this`challenges, this`audit, this`history, sessions.Values
      ensures Valid() && Abs() == Commit(old(PlanHandover(Abs(), user, p, id, now)), now)
      ensures reply == old(PlanHandover(Abs(), user, p, id, now)).reply
    {
      var stop := TargetSession(user, p, id, now);
      NothingMore(Abs(), now);
      if stop.Some? {
        return stop.value;
      }
      reply := Hand(id, user, now);
    }

    /** The rest of handover. */
    method Hand(id: Id, user: Id, now: Time) returns (reply: Response)
      requires Valid() && id in sessions
      modifies this`audit, this`history, sessions.Values
      ensures Valid() && Abs() == Commit(old(HandoverTo(Abs(), user, id)), now)
      ensures reply == old(HandoverTo(Abs(), user, id)).reply
    {
      NothingMore(Abs(), now);
      HandoverToCases(Abs(), id, user, now);
      var v := sessions[id];
      var wanted := HasControl(v.requested);
      if v.state != Active || !wanted {
        return Fail(409, NoControlRequested);
      }
      reply := HandoverAndAnswer(id, user, now);
    }

    method HandoverAndAnswer(id: Id, user: Id, now: Time) returns (reply: Response)
      requires Valid() && id in sessions
      modifies this`audit, this`history, sessions.Values
      ensures Valid() && Abs() == HandedTo(old(Abs()), id, user, now)
      ensures reply == SessionOut(200, Abs().sessions[id])
    {
      HandoverAndRecord(id, user, now);
      assert Valid();
      assert SessionRecs(sessions)[id] == sessions[id].Rec();
      return SessionOut(200, sessions[id].Rec());
    }

    method HandoverAndRecord(id: Id, user: Id, now: Time)
      requires Logged() && Named(sessions) && id in sessions
      modifies this`audit, this`history, sessions.Values
      ensures Logged() && DeviceRecs(devices) == old(DeviceRecs(devices))
      ensures SessionRecs(sessions) == TakenAt(Yielded(old(SessionRecs(sessions)), id, {}), id)
      ensures history == old(history) + [Audit(user, SessionEvent(ControlHandover), id, now)]
    {
      MoveControl(id);
      Record(Audit(user, SessionEvent(ControlHandover), id, now));
    }

    method MoveControl(id: Id)
      requires Named(sessions) && id in sessions
      modifies sessions.Values
      ensures SessionRecs(sessions) == TakenAt(Yielded(old(SessionRecs(sessions)), id, {}), id)
      ensures DeviceRecs(devices) == old(DeviceRecs(devices))
    {
      ghost var known := DeviceRecs(devices);
      OthersYield(id);
      Take(id);
      SameDevices(devices, known);
    }

    /** The other active sessions of the target give up control, in whichever order they are met. */
    method OthersYield(id: Id)
      requires Named(sessions) && id in sessions
      modifies sessions.Values
      ensures SessionRecs(sessions) == Yielded(old(SessionRecs(sessions)), id, {})
    {
      ghost var was := SessionRecs(sessions);
      var todo := sessions.Keys;
      while todo != {}
        invariant todo <= sessions.Keys
        invariant SessionRecs(sessions) == Yielded(was, id, todo)
        decreases |todo|
      {
        var other :| other in todo;
        YieldedStep(was, id, todo, other);
        YieldNext(other, id);
        todo := todo - {other};
      }
    }

    method YieldNext(other: Id, id: Id)
      requires Named(sessions) && id in sessions && other in sessions
      modifies sessions.Values
      ensures SessionRecs(sessions) == YieldAt(old(SessionRecs(sessions)), other, id)
    {
      ghost var was := SessionRecs(sessions);
      var v, o := sessions[id], sessions[other];
      if o.target == v.target && o.state == Active && o.id != v.id {
        var next := StripControl(o.granted);
        o.granted := next;
        o.epoch := o.epoch + 1;
        OneSession(sessions, was, other);
      }
    }

    method Take(id: Id)
      requires Named(sessions) && id in sessions
      modifies sessions.Values
      ensures SessionRecs(sessions) == TakenAt(old(SessionRecs(sessions)), id)
    {
      ghost var was := SessionRecs(sessions);
      var v := sessions[id];
      var next := AddControl(v.granted, v.requested);
      v.granted := next;
      v.epoch := v.epoch + 1;
      OneSession(sessions, was, id);
    }

    // ---------- devices ----------

    /** The loop of registerDevice: a holder of the key if there is one, and otherwise the number of
        the user's unrevoked devices, whichever order the map yields. */
    method FindDevice(key: string, user: Id) returns (holder: Option<Id>, count: nat)
      ensures holder.Some? ==> HoldsKey(DeviceRecs(devices), holder.value, key)
      ensures holder.None? ==> !(exists h :: HoldsKey(DeviceRecs(devices), h, key))
      ensures holder.None? ==> count == |ActiveDevices(DeviceRecs(devices), user)|
    {
      var todo := devices.Keys;
      ghost var recs := DeviceRecs(devices);
      ghost var counted: set<Id> := {};
      count := 0;
      while todo != {}
        invariant todo <= devices.Keys && count == |counted|
        invariant counted == set id | id in ActiveDevices(recs, user) && id !in todo
        invariant forall h :: HoldsKey(recs, h, key) ==> h in todo
        decreases |todo|
      {
        var id :| id in todo;
        var d := devices[id];
        assert recs[id] == d.Rec();
        if d.key == key {
          return Some(id), count;
        }
        todo := todo - {id};
        if d.owner == user && !d.revoked {
          assert id in ActiveDevices(recs, user);
          count := count + 1;
          counted := counted + {id};
        } else {
          assert id !in ActiveDevices(recs, user);
        }
      }
      assert counted == ActiveDevices(recs, user);
      return None, count;
    }

    method RegisterDevice(user: Id, p: Proof, name: string, key: string, os: string, kind: string, id: Id, now: Time)
        returns (reply: Response)
      requires Valid() && id !in devices
      modifies this`challenges, this`devices, this`audit, this`history, devices.Values
      ensures Valid() && Abs() == Commit(old(PlanRegisterDevice(Abs(), user, p, name, key, os, kind, id, now)), now)
      ensures reply == old(PlanRegisterDevice(Abs(), user, p, name, key, os, kind, id, now)).reply
    {
      NothingMore(Abs(), now);
      var kind' := DefaultKind(kind);
      if !ValidDevice(name, os, kind') {
        return Fail(400, BadDevice);
      }
      var ok := CheckProof(user, key, p, now);
      NothingMore(Abs(), now);
      if !ok {
        return Fail(403, DeviceProofRequired);
      }
      reply := EnrolDevice(user, name, key, os, kind', id, now);
    }

    /** The rest of registerDevice, once the device has been proved present. */
    method EnrolDevice(user: Id, name: string, key: string, os: string, kind: string, id: Id, now: Time)
        returns (reply: Response)
      requires Valid() && id !in devices
      modifies this`devices, this`audit, this`history, devices.Values
      ensures Valid() && Abs() == Commit(old(Enrol(Abs(), user, name, key, os, kind, id, now)), now)
      ensures reply == old(Enrol(Abs(), user, name, key, os, kind, id, now)).reply
    {
      var holder, count := FindDevice(key, user);
      EnrolCases(Abs(), user, name, key, os, kind, id, now, holder);
      NothingMore(Abs(), now);
      if holder.Some? {
        reply := ConfirmDevice(user, holder.value, name, os, kind, now);
        return;
      }
      if count >= MAX_DEVICES {
        return Fail(409, DeviceLimit);
      }
      assert forall k :: k in devices ==> !HoldsKey(DeviceRecs(devices), k, key);
      EnrolledCommits(Abs(), DeviceRec(id, user, key, name, os, kind, ZERO_TIME, false), DeviceRegistered, 201, now);
      reply := AddDevice(id, user, key, name, os, kind, now);
    }

    method AddDevice(id: Id, user: Id, key: string, name: string, os: string, kind: string, now: Time)
        returns (reply: Response)
      requires Valid() && id !in devices && forall k :: k in devices ==> devices[k].key != key
      modifies this`devices, this`audit, this`history
      ensures var d := DeviceRec(id, user, key, name, os, kind, ZERO_TIME, false);
              Valid() && Abs() == Enrolled(old(Abs()), d, user, DeviceRegistered, now) && reply == DeviceOut(201, d)
    {
      StoreDevice(id, user, key, name, os, kind);
      Record(Audit(user, DeviceRegistered, id, now));
      return DeviceOut(201, DeviceRec(id, user, key, name, os, kind, ZERO_TIME, false));
    }

    method StoreDevice(id: Id, user: Id, key: string, name: string, os: string, kind: string)
      requires Distinct(devices) && id !in devices && forall k :: k in devices ==> devices[k].key != key
      modifies this`devices
      ensures Distinct(devices) && devices.Keys == old(devices).Keys + {id}
      ensures SessionRecs(sessions) == old(SessionRecs(sessions))
      ensures DeviceRecs(devices) ==
              old(DeviceRecs(devices))[id := DeviceRec(id, user, key, name, os, kind, ZERO_TIME, false)]
    {
      ghost var was, known := SessionRecs(sessions), DeviceRecs(devices);
      var d := new Device(id, user, key, name, os, kind);
      devices := devices[id := d];
      SameSessions(sessions, was);
      OneDevice(devices, known, id);
    }

    method ConfirmDevice(user: Id, holder: Id, name: string, os: string, kind: string, now: Time)
        returns (reply: Response)
      requires Valid() && holder in devices
      modifies this`audit, this`history, devices.Values
      ensures Valid() && Abs() == Commit(old(Confirm(Abs(), user, holder, name, os, kind, now)), now)
      ensures reply == old(Confirm(Abs(), user, holder, name, os, kind, now)).reply
    {
      NothingMore(Abs(), now);
      var d := devices[holder];
      if d.owner != user {
        return Fail(409, IdentityTaken);
      }
      if d.revoked {
        return Fail(403, IdentityRevoked);
      }
      EnrolledCommits(Abs(), Renamed(d.Rec(), name, os, kind), DeviceConfirmed, 200, now);
      reply := RenameDevice(holder, user, name, os, kind, now);
    }

    method RenameDevice(id: Id, user: Id, name: string, os: string, kind: string, now: Time) returns (reply: Response)
      requires Valid() && id in devices
      modifies this`audit, this`history, devices.Values
      ensures var d := Renamed(old(devices[id].Rec()), name, os, kind);
              Valid() && Abs() == Enrolled(old(Abs()), d, user, DeviceConfirmed, now) && reply == DeviceOut(200, d)
    {
      Rename(id, name, os, kind);
      Record(Audit(user, DeviceConfirmed, devices[id].id, now));
      assert DeviceRecs(devices)[id] == devices[id].Rec();
      return DeviceOut(200, devices[id].Rec());
    }

    method Rename(id: Id, name: string, os: string, kind: string)
      requires Distinct(devices) && id in devices
      modifies devices.Values
      ensures SessionRecs(sessions) == old(SessionRecs(sessions))
      ensures DeviceRecs(devices) == old(DeviceRecs(devices)[id := Renamed(devices[id].Rec(), name, os, kind)])
    {
      ghost var was, known := SessionRecs(sessions), DeviceRecs(devices);
      var d := devices[id];
      d.name, d.os := name, os;
      d.kind := kind;
      SameSessions(sessions, was);
      OneDevice(devices, known, id);
    }

    method RevokeDevice(user: Id, id: Id, now: Time, order: seq<Id>) returns (reply: Response, closing: set<Id>)
      requires Valid() && IsOrder(order, sessions.Keys)
      modifies this`audit, this`history, devices.Values, sessions.Values
      ensures Valid() && Abs() == Commit(old(PlanRevokeDevice(Abs(), user, id, now, order)), now)
      ensures reply == old(PlanRevokeDevice(Abs(), user, id, now, order)).reply
      ensures closing == if reply == Done && id in old(peers) then {id} else {}
    {
      NothingMore(Abs(), now);
      if id !in devices || devices[id].owner != user {
        return Fail(404, DeviceNotFound), {};
      }
      MarkRevoked(id);
      EndingCommits(Abs(), OnDevice(id), Revoked, user, order, Audit(user, DeviceRevoked, id, now), Done, now);
      EndAllAndRecord(OnDevice(id), order, Revoked, user, Audit(user, DeviceRevoked, id, now), now);
      return Done, if id in peers then {id} else {};
    }

    method MarkRevoked(id: Id)
      requires Valid() && id in devices
      modifies devices.Values
      ensures Valid() && Abs() == Revoking(old(Abs()), id)
    {
      ghost var was, known := SessionRecs(sessions), DeviceRecs(devices);
      devices[id].revoked := true;
      SameSessions(sessions, was);
      OneDevice(devices, known, id);
    }

    method EndAllAndRecord(which: Which, order: seq<Id>, final: SessionState, actor: Id, e: Audit, now: Time)
      requires Valid() && IsOrder(order, sessions.Keys)
      modifies this`audit, this`history, sessions.Values
      ensures Valid() && Abs() == AllEnded(old(Abs()), which, final, actor, order, [e], now)
    {
      EndAll(which, order, final, actor, now);
      Record(e);
    }

    // ---------- the prologue ----------

    method PurgeChallenges(now: Time)
      modifies this`challenges
      ensures challenges == map k | k in old(challenges) && now < old(challenges)[k].expires :: old(challenges)[k]
      ensures SessionRecs(sessions) == old(SessionRecs(sessions))
      ensures DeviceRecs(devices) == old(DeviceRecs(devices))
    {
      var todo := challenges.Keys;
      while todo != {}
        invariant todo <= challenges.Keys
        invariant challenges ==
                  map k | k in old(challenges) && (k in todo || now < old(challenges)[k].expires) :: old(challenges)[k]
        decreases |todo|
      {
        var k :| k in todo;
        todo := todo - {k};
        if now >= challenges[k].expires {
          challenges := challenges - {k};
        }
      }
    }

    method PurgeRates(now: Time)
      modifies this`rates
      ensures rates == map k | k in old(rates) && now < old(rates)[k].until :: old(rates)[k]
      ensures SessionRecs(sessions) == old(SessionRecs(sessions))
      ensures DeviceRecs(devices) == old(DeviceRecs(devices))
    {
      var todo := rates.Keys;
      while todo != {}
        invariant todo <= rates.Keys
        invariant rates == map k | k in old(rates) && (k in todo || now < old(rates)[k].until) :: old(rates)[k]
        decreases |todo|
      {
        var k :| k in todo;
        todo := todo - {k};
        if now >= rates[k].until {
          rates := rates - {k};
        }
      }
    }

    method PurgeTokens(now: Time)
      modifies this`refresh
      ensures refresh == map k | k in old(refresh) && now < old(refresh)[k].expires :: old(refresh)[k]
      ensures SessionRecs(sessions) == old(SessionRecs(sessions))
      ensures DeviceRecs(devices) == old(DeviceRecs(devices))
    {
      var todo := refresh.Keys;
      while todo != {}
        invariant todo <= refresh.Keys
        invariant refresh ==
                  map k | k in old(refresh) && (k in todo || now < old(refresh)[k].expires) :: old(refresh)[k]
        decreases |todo|
      {
        var k :| k in todo;
        todo := todo - {k};
        if now >= refresh[k].expires {
          refresh := refresh - {k};
        }
      }
    }

    method Expire(now: Time, order: seq<Id>)
      requires Valid() && IsOrder(order, sessions.Keys)
      modifies this`audit, this`history, this`challenges, this`rates, this`refresh, sessions.Values
      ensures Valid() && Abs() == AllEnded(Purge(old(Abs()), now), Overdue(now), Expired, SYSTEM, order, [], now)
    {
      EndAll(Overdue(now), order, Expired, SYSTEM, now);
      PurgeAll(now);
    }

    method PurgeAll(now: Time)
      requires Valid()
      modifies this`challenges, this`rates, this`refresh
      ensures Valid() && Abs() == Purge(old(Abs()), now)
    {
      PurgeChallenges(now);
      PurgeRates(now);
      PurgeTokens(now);
    }

    /** The critical section every request goes through first. */
    method Arrive(host: string, authPath: bool, now: Time, order: seq<Id>) returns (reply: Response)
      requires Valid() && IsOrder(order, sessions.Keys)
      modifies this`audit, this`history, this`challenges, this`rates, this`refresh, sessions.Values
      ensures Valid() && Abs() == Commit(old(PlanArrive(Abs(), host, authPath, now, order, true)), now)
      ensures reply == old(PlanArrive(Abs(), host, authPath, now, order, true)).reply
    {
      ArriveCommits(Abs(), host, authPath, now, order);
      Expire(now, order);
      reply := Charged(host, authPath, now);
    }

    method Charged(host: string, authPath: bool, now: Time) returns (reply: Response)
      requires Valid()
      modifies this`rates
      ensures Valid()
      ensures Abs() == old(Abs()).(rates := ChargedRates(old(rates), host, authPath, now))
      ensures reply == LimitReply(ChargedRates(old(rates), host, authPath, now), host, authPath)
    {
      var k, limit := host, 300;
      if authPath {
        k := k + "/auth";
        limit := 15;
      }
      var v := if k in rates then rates[k] else Rate(0, ZERO_TIME);
      if now >= v.until {
        v := Rate(0, now + MINUTE);
      }
      v := v.(count := v.count + 1);
      rates := rates[k := v];
      assert SessionRecs(sessions) == old(SessionRecs(sessions));
      assert DeviceRecs(devices) == old(DeviceRecs(devices));
      return if v.count > limit then Fail(429, TooManyRequests) else Admitted;
    }

    // ---------- accounts and tokens ----------

    /** issue, given the family that it drew or was passed. */
    method IssueTokens(code: nat, user: Id, family: string, raw: string, now: Time) returns (reply: Response)
      requires Valid() && user in accounts
      modifies this`refresh
      ensures Valid() && Abs() == Issue(old(Abs()), user, family, raw, now)
      ensures reply == IssuedTokens(old(Abs()), code, user, raw, now)
    {
      refresh := refresh[Digest(raw) := RefreshRec(user, family, now + REFRESH_LIFETIME, false)];
      assert SessionRecs(sessions) == old(SessionRecs(sessions));
      assert DeviceRecs(devices) == old(DeviceRecs(devices));
      return Tokens(code, Sign(key, user, accounts[user].version, now), raw);
    }

    method Register(addressOk: bool, email: string, name: string, password: string,
                    id: Id, family: string, raw: string, now: Time) returns (reply: Response)
      requires Valid()
      modifies this`accounts, this`emails, this`refresh, this`audit, this`history
      ensures Valid()
      ensures Abs() == Commit(old(PlanRegister(Abs(), addressOk, email, name, password, id, family, raw, now)), now)
      ensures reply == old(PlanRegister(Abs(), addressOk, email, name, password, id, family, raw, now)).reply
    {
      NothingMore(Abs(), now);
      if !addressOk || |name| < 1 || |name| > 80 || |password| < 12 || |password| > 256 {
        return Fail(400, BadRegistration);
      }
      var taken := if email in emails then emails[email] else "";
      if taken != "" {
        return Fail(409, AccountTaken);
      }
      RegisterCommits(Abs(), email, name, password, id, family, raw, now);
      NewAccount(AccountRec(id, email, name, PasswordHash(password), 0));
      Record(Audit(id, AccountRegistered, id, now));
      reply := IssueTokens(201, id, family, raw, now);
    }

    method NewAccount(a: AccountRec)
      requires Valid()
      modifies this`accounts, this`emails
      ensures Valid() && Abs() == WithAccount(old(Abs()), a)
    {
      accounts := accounts[a.id := a];
      emails := emails[a.email := a.id];
      assert SessionRecs(sessions) == old(SessionRecs(sessions));
      assert DeviceRecs(devices) == old(DeviceRecs(devices));
    }

    method Login(email: string, password: string, family: string, raw: string, now: Time) returns (reply: Response)
      requires Valid()
      modifies this`refresh, this`audit, this`history
      ensures Valid() && Abs() == Commit(old(PlanLogin(Abs(), email, password, family, raw, now)), now)
      ensures reply == old(PlanLogin(Abs(), email, password, family, raw, now)).reply
    {
      NothingMore(Abs(), now);
      if |password| > 256 {
        return Fail(400, InvalidCredentials);
      }
      var id := if email in emails then emails[email] else "";
      if id !in accounts || accounts[id].password != PasswordHash(password) {
        return Fail(401, InvalidCredentials);
      }
      LoginCommits(Abs(), id, family, raw, now);
      Record(Audit(accounts[id].id, AccountLogin, accounts[id].id, now));
      reply := IssueTokens(200, id, family, raw, now);
    }

    method UseTokensOfFamily(family: string)
      modifies this`refresh
      ensures refresh == UseFamily(old(refresh), family)
      ensures SessionRecs(sessions) == old(SessionRecs(sessions))
      ensures DeviceRecs(devices) == old(DeviceRecs(devices))
    {
      var todo := refresh.Keys;
      while todo != {}
        invariant todo <= refresh.Keys == old(refresh).Keys
        invariant forall d :: d in refresh ==>
          refresh[d] == if d in todo then old(refresh)[d] else UseFamily(old(refresh), family)[d]
        decreases |todo|
      {
        var d :| d in todo;
        todo := todo - {d};
        if refresh[d].family == family {
          refresh := refresh[d := refresh[d].(used := true)];
        }
      }
    }

    method UseTokensOf(user: Id)
      modifies this`refresh
      ensures refresh == UseAllOf(old(refresh), user)
      ensures SessionRecs(sessions) == old(SessionRecs(sessions))
      ensures DeviceRecs(devices) == old(DeviceRecs(devices))
    {
      var todo := refresh.Keys;
      while todo != {}
        invariant todo <= refresh.Keys == old(refresh).Keys
        invariant forall d :: d in refresh ==>
          refresh[d] == if d in todo then old(refresh)[d] else UseAllOf(old(refresh), user)[d]
        decreases |todo|
      {
        var d :| d in todo;
        todo := todo - {d};
        if refresh[d].user == user {
          refresh := refresh[d := refresh[d].(used := true)];
        }
      }
    }

    /** invalidate up to its loop over the sessions. */
    method OutdateTokens(user: Id)
      requires Valid() && user in accounts
      modifies this`accounts, this`refresh
      ensures Valid() && Abs() == Invalidate(old(Abs()), user)
    {
      NextVersion(user);
      UseTokensOf(user);
    }

    method NextVersion(user: Id)
      requires user in accounts
      modifies this`accounts
      ensures accounts == old(accounts)[user := old(accounts)[user].(version := old(accounts)[user].version + 1)]
      ensures SessionRecs(sessions) == old(SessionRecs(sessions))
      ensures DeviceRecs(devices) == old(DeviceRecs(devices))
    {
      accounts := accounts[user := accounts[user].(version := accounts[user].version + 1)];
    }

    /** The last loop of invalidate: the peers whose sockets it closes, and whether it got to its end
        or met a peer that is no device, where the source panics. */
    method CloseSockets(user: Id) returns (done: bool, closing: set<Id>)
      requires Valid()
      ensures done <==> PeersKnown(Abs())
      ensures closing <= PeersOf(Abs(), user) && (done ==> closing == PeersOf(Abs(), user))
      ensures done ==>
                forall p :: p in closing <==> p in peers && p in devices && devices[p].owner == user
    {
      closing := {};
      var todo := peers;
      ghost var known := DeviceRecs(devices);
      while todo != {}
        invariant todo <= peers && forall p :: p in peers && p !in todo ==> p in devices
        invariant closing == set p | p in peers && p in known && known[p].owner == user && p !in todo
        decreases |todo|
      {
        var p :| p in todo;
        todo := todo - {p};
        if p !in devices {
          return false, closing;
        }
        assert known[p] == devices[p].Rec();
        if devices[p].owner == user {
          closing := closing + {p};
        }
      }
      return true, closing;
    }

    /** invalidate, and the event that its callers record after it. */
    method InvalidateAndRecord(user: Id, e: Audit, now: Time, order: seq<Id>) returns (done: bool, closing: set<Id>)
      requires Valid() && user in accounts && IsOrder(order, sessions.Keys)
      modifies this`accounts, this`refresh, this`audit, this`history, sessions.Values
      ensures Valid() && Abs() == AfterClosing(Invalidate(old(Abs()), user), user, order, e, now)
      ensures done <==> PeersKnown(old(Abs()))
      ensures closing <= PeersOf(old(Abs()), user) && (done ==> closing == PeersOf(old(Abs()), user))
    {
      OutdateTokens(user);
      AllEndedThen(Abs(), VisibleTo(user), Closed, user, order, e, now);
      EndSessions(VisibleTo(user), order, Closed, user, now);
      done, closing := CloseSockets(user);
      if done {
        Record(e);
      }
    }

    method EndSessions(which: Which, order: seq<Id>, final: SessionState, actor: Id, now: Time)
      requires Valid() && IsOrder(order, sessions.Keys)
      modifies this`audit, this`history, sessions.Values
      ensures Valid() && Abs() == AllEnded(old(Abs()), which, final, actor, order, [], now)
    {
      EndAll(which, order, final, actor, now);
      assert Valid() && history + [] == history;
    }

    method Logout(user: Id, now: Time, order: seq<Id>) returns (reply: Response, closing: set<Id>)
      requires Valid() && user in accounts && IsOrder(order, sessions.Keys)
      modifies this`accounts, this`refresh, this`audit, this`history, sessions.Values
      ensures Valid() && Abs() == Commit(old(PlanLogout(Abs(), user, now, order)), now)
      ensures reply == old(PlanLogout(Abs(), user, now, order)).reply
      ensures closing <= PeersOf(old(Abs()), user) && (reply == Done ==> closing == PeersOf(old(Abs()), user))
    {
      LogoutCommits(Abs(), user, now, order);
      var done;
      done, closing := InvalidateAndRecord(user, Audit(user, AccountLogout, user, now), now, order);
      reply := if done then Done else Crashed;
    }

    method Rotate(token: string, raw: string, now: Time, order: seq<Id>) returns (reply: Response, closing: set<Id>)
      requires Valid() && IsOrder(order, sessions.Keys)
      modifies this`accounts, this`refresh, this`audit, this`history, sessions.Values
      ensures Valid() && Abs() == Commit(old(PlanRotate(Abs(), token, raw, now, order)), now)
      ensures reply == old(PlanRotate(Abs(), token, raw, now, order)).reply
      ensures reply == Fail(401, ReusedRefresh) ==>
                closing == PeersOf(old(Abs()), old(Abs()).refresh[Digest(token)].user)
      ensures reply.Tokens? || reply == Fail(401, InvalidRefresh) ==> closing == {}
    {
      NothingMore(Abs(), now);
      closing := {};
      var d := Digest(token);
      if d !in refresh || now >= refresh[d].expires {
        return Fail(401, InvalidRefresh), closing;
      }
      var t := refresh[d];
      if t.used {
        reply, closing := PunishReuse(d, raw, now, order);
        return;
      }
      RotateCommits(Abs(), d, t, raw, now, order);
      UseToken(d);
      reply := IssueTokens(200, t.user, t.family, raw, now);
    }

    /** The branch of rotate for a used token. */
    method PunishReuse(d: Digest, raw: string, now: Time, order: seq<Id>) returns (reply: Response, closing: set<Id>)
      requires Valid() && IsOrder(order, sessions.Keys)
      requires d in refresh && now < refresh[d].expires && refresh[d].used
      modifies this`accounts, this`refresh, this`audit, this`history, sessions.Values
      ensures Valid() && Abs() == Commit(old(PlanRotate(Abs(), d.of, raw, now, order)), now)
      ensures reply == old(PlanRotate(Abs(), d.of, raw, now, order)).reply
      ensures reply == Fail(401, ReusedRefresh) || reply == Crashed
      ensures reply.Fail? ==> closing == PeersOf(old(Abs()), old(Abs()).refresh[d].user)
    {
      var t := refresh[d];
      ReuseCommits(Abs(), d, t, raw, now, order);
      UseFamilyTokens(t.family);
      var done;
      done, closing := InvalidateAndRecord(t.user, Audit(t.user, RefreshReuse, t.family, now), now, order);
      reply := if done then Fail(401, ReusedRefresh) else Crashed;
    }

    method UseFamilyTokens(family: string)
      requires Valid()
      modifies this`refresh
      ensures Valid() && Abs() == FamilyUsed(old(Abs()), family)
    {
      UseTokensOfFamily(family);
    }

    method UseToken(d: Digest)
      requires Valid() && d in refresh
      modifies this`refresh
      ensures Valid() && Abs() == TokenUsed(old(Abs()), d)
    {
      refresh := refresh[d := refresh[d].(used := true)];
    }

    method VerifyAccess(token: AccessToken, now: Time) returns (reply: Response)
      requires Valid()
      ensures Commit(PlanVerifyAccess(Abs(), token, now), now) == Abs()
      ensures reply == PlanVerifyAccess(Abs(), token, now).reply
    {
      NothingMore(Abs(), now);
      var c := Verify(key, token, now);
      if c.None? {
        return Fail(401, InvalidAccess);
      }
      var user := c.value.subject;
      if user !in accounts || accounts[user].version != c.value.version {
        return Fail(401, InvalidAccess);
      }
      return Subject(user);
    }

    // ---------- reading ----------

    method ListAudit(user: Id, now: Time) returns (reply: Response)
      requires Valid()
      ensures Commit(PlanListAudit(Abs(), user), now) == Abs()
      ensures reply == PlanListAudit(Abs(), user).reply
    {
      NothingMore(Abs(), now);
      var out := NewestConcerning(user);
      return AuditOut(out);
    }

    method DoesConcern(e: Audit, user: Id) returns (r: bool)
      requires Named(sessions)
      ensures r <==> Wanted(DeviceRecs(devices), SessionRecs(sessions), user)(e)
    {
      var seen := false;
      if e.resource in sessions {
        seen := IsVisible(sessions[e.resource], user, DeviceRecs(devices));
      }
      r := e.actor == user || (e.resource in devices && devices[e.resource].owner == user) || seen;
    }

    method NewestConcerning(user: Id) returns (out: seq<Audit>)
      requires Logged() && Named(sessions)
      ensures out == AuditPage(DeviceRecs(devices), SessionRecs(sessions), history, user)
    {
      ghost var want := Wanted(DeviceRecs(devices), SessionRecs(sessions), user);
      out := [];
      var i := |audit| - 1;
      GatherAll(audit, want, AUDIT_PAGE);
      while i >= 0 && |out| < AUDIT_PAGE
        invariant -1 <= i < |audit|
        invariant Gather(audit, want, AUDIT_PAGE, out, i + 1) == Newest(audit, want, AUDIT_PAGE)
        decreases i
      {
        var seen := DoesConcern(audit[i], user);
        if seen {
          out := out + [audit[i]];
        }
        i := i - 1;
      }
    }

    method ListRelays(credential: Credential) returns (entries: seq<IceEntry>)
      ensures entries == IceEntries(iceUrls, credential)
    {
      entries := [];
      for i := 0 to |iceUrls|
        invariant entries == IceEntries(iceUrls[..i], credential)
      {
        var entry := IceEntry(iceUrls[i], None);
        if IsRelay(iceUrls[i]) {
          entry := entry.(credential := Some(credential));
        }
        entries := entries + [entry];
      }
      assert iceUrls[..|iceUrls|] == iceUrls;
    }

    method CheckRelay(user: Id, id: Id, now: Time) returns (stop: Option<Response>)
      requires Named(sessions)
      ensures stop == RelayStop(DeviceRecs(devices), SessionRecs(sessions), iceUrls, user, id, now)
    {
      if id !in sessions {
        return Some(Fail(404, SessionNotFound));
      }
      var v := sessions[id];
      assert SessionRecs(sessions)[id] == v.Rec();
      var seen := IsVisible(v, user, DeviceRecs(devices));
      if !seen {
        return Some(Fail(404, SessionNotFound));
      }
      if v.state != Active || now >= v.expires {
        return Some(Fail(403, ApprovedSessionRequired));
      }
      return if |iceUrls| == 0 then Some(Fail(503, NoRelay)) else None;
    }

    method IceConfiguration(user: Id, id: Id, now: Time) returns (reply: Response)
      requires Valid()
      ensures Commit(PlanIce(Abs(), user, id, now), now) == Abs()
      ensures reply == PlanIce(Abs(), user, id, now).reply
    {
      NothingMore(Abs(), now);
      IceCases(Abs(), user, id, now);
      var stop := CheckRelay(user, id, now);
      if stop.Some? {
        return stop.value;
      }
      assert SessionRecs(sessions)[id] == sessions[id].Rec();
      var until := now + RELAY_LIFETIME;
      if sessions[id].expires < until {
        until := sessions[id].expires;
      }
      var entries := ListRelays(Credential(user, Unix(until)));
      return IceOut(entries, until);
    }
  }
}
