/** Runs of the service: every interleaving of critical sections, under a clock that does not go
    back and random identifiers that are never drawn twice. */
module Runs {
  import opened Wrappers
  import opened Types
  import opened Permissions
  import opened Token
  import opened Model

  /** One critical section with everything it takes from outside. The last four are the
      environment: sockets coming and going, a device being seen, and the event that
      analyzeSessionWithAI records for any session name it is sent. */
  datatype Input =
    | Arrive(host: string, authPath: bool)
    | Register(addressOk: bool, email: string, name: string, password: string, newId: Id, family: string, raw: string)
    | Login(email: string, password: string, family: string, raw: string)
    | Rotate(token: string, raw: string)
    | Logout(user: Id)
    | VerifyAccess(access: AccessToken, read: Time)
    | NewChallenge(user: Id, nonce: string)
    | RegisterDevice(user: Id, proof: Proof, name: string, key: string, os: string, kind: string, newId: Id)
    | RevokeDevice(user: Id, id: Id)
    | RequestSession(user: Id, proof: Proof, source: Id, target: Id, grant: seq<Permission>, newId: Id)
    | Decide(user: Id, proof: Proof, id: Id, approve: bool, grant: seq<Permission>)
    | ChangePermissions(user: Id, proof: Proof, id: Id, grant: seq<Permission>)
    | HandControl(user: Id, proof: Proof, id: Id)
    | StopSession(user: Id, id: Id)
    | ListAudit(user: Id)
    | IceConfiguration(user: Id, id: Id)
    | Connect(id: Id)
    | Disconnect(id: Id)
    | Touch(id: Id)
    | Analyze(user: Id, id: Id)

  /** `order` is the order in which the section's loop over the session map meets the keys. */
  datatype Event = Event(input: Input, now: Time, order: seq<Id>)

  datatype World = World(st: State, issued: set<string>, clock: Time)

  function Start(key: string, iceUrls: seq<string>): World {
    World(Empty(key, iceUrls), {}, 0)
  }

  /** The user an authenticated handler acts for. */
  function ActsFor(i: Input): Option<Id> {
    match i
    case Logout(user) => Some(user)
    case NewChallenge(user, _) => Some(user)
    case RegisterDevice(user, _, _, _, _, _, _) => Some(user)
    case RevokeDevice(user, _) => Some(user)
    case RequestSession(user, _, _, _, _, _) => Some(user)
    case Decide(user, _, _, _, _) => Some(user)
    case ChangePermissions(user, _, _, _) => Some(user)
    case HandControl(user, _, _) => Some(user)
    case StopSession(user, _) => Some(user)
    case ListAudit(user) => Some(user)
    case IceConfiguration(user, _) => Some(user)
    case _ => None
  }

  /** The random identifiers a section may draw. */
  function Draws(i: Input): seq<string> {
    match i
    case Register(_, _, _, _, id, family, raw) => [id, family, raw]
    case Login(_, _, family, raw) => [family, raw]
    case Rotate(_, raw) => [raw]
    case NewChallenge(_, nonce) => [nonce]
    case RegisterDevice(_, _, _, _, _, _, id) => [id]
    case RequestSession(_, _, _, _, _, id) => [id]
    case _ => []
  }

  ghost predicate Enabled(w: World, e: Event) {
    && e.now >= w.clock
    && IsOrder(e.order, w.st.sessions.Keys)
    && NoDuplicates(Draws(e.input))
    && (forall x :: x in Draws(e.input) ==> x !in w.issued && x != "")
    && (e.input.VerifyAccess? ==> e.input.read <= e.now)
    && (ActsFor(e.input).Some? ==> ActsFor(e.input).value in w.st.accounts)
  }

  /** The lookups that the section dereferences without a check all succeed, but for those of
      `invalidate` among the peers: a section whose lookup of a peer fails is answered Crashed. */
  predicate Defined(st: State, i: Input) {
    match i
    case Rotate(_, _) => OwnersExist(st)
    case Decide(_, _, _, _, _) => TargetsExist(st)
    case ChangePermissions(_, _, _, _) => TargetsExist(st)
    case HandControl(_, _, _) => TargetsExist(st)
    case Logout(user) => user in st.accounts
    case RequestSession(user, _, _, _, _, _) => user in st.accounts
    case _ => true
  }

  function PlanPeers(st: State, peers: set<Id>): Outcome {
    Outcome(st.(peers := peers), Quiet, [], Done)
  }

  function PlanTouch(st: State, id: Id, now: Time): Outcome {
    Outcome(if id in st.devices then st.(devices := st.devices[id := st.devices[id].(lastSeen := now)]) else st,
            Quiet, [], Done)
  }

  function PlanAnalyze(st: State, user: Id, id: Id, now: Time): Outcome {
    Outcome(st, Quiet, [Audit(user, AiAnalyzed, id, now)], Done)
  }

  ghost function Plan(st: State, e: Event, purge: bool): Outcome
    requires Defined(st, e.input)
  {
    match e.input
    case Arrive(host, authPath) => PlanArrive(st, host, authPath, e.now, e.order, purge)
    case Register(ok, email, name, password, id, family, raw) =>
      PlanRegister(st, ok, email, name, password, id, family, raw, e.now)
    case Login(email, password, family, raw) => PlanLogin(st, email, password, family, raw, e.now)
    case Rotate(token, raw) => PlanRotate(st, token, raw, e.now, e.order)
    case Logout(user) => PlanLogout(st, user, e.now, e.order)
    case VerifyAccess(access, read) => PlanVerifyAccess(st, access, read)
    case NewChallenge(user, nonce) => PlanNewChallenge(st, user, nonce, e.now)
    case RegisterDevice(user, p, name, key, os, kind, id) =>
      PlanRegisterDevice(st, user, p, name, key, os, kind, id, e.now)
    case RevokeDevice(user, id) => PlanRevokeDevice(st, user, id, e.now, e.order)
    case RequestSession(user, p, source, target, grant, id) =>
      PlanRequest(st, user, p, source, target, grant, id, e.now)
    case Decide(user, p, id, approve, grant) => PlanDecide(st, user, p, id, approve, grant, e.now)
    case ChangePermissions(user, p, id, grant) => PlanChange(st, user, p, id, grant, e.now)
    case HandControl(user, p, id) => PlanHandover(st, user, p, id, e.now)
    case StopSession(user, id) => PlanStop(st, user, id)
    case ListAudit(user) => PlanListAudit(st, user)
    case IceConfiguration(user, id) => PlanIce(st, user, id, e.now)
    case Connect(id) => PlanPeers(st, st.peers + {id})
    case Disconnect(id) => PlanPeers(st, st.peers - {id})
    case Touch(id) => PlanTouch(st, id, e.now)
    case Analyze(user, id) => PlanAnalyze(st, user, id, e.now)
  }

  ghost function Step(w: World, e: Event, purge: bool): World
    requires Defined(w.st, e.input)
  {
    World(Commit(Plan(w.st, e, purge), e.now), w.issued + (set x | x in Draws(e.input)), e.now)
  }

  ghost function Reply(w: World, e: Event, purge: bool): Response
    requires Defined(w.st, e.input)
  {
    Plan(w.st, e, purge).reply
  }

  /** ws[n] is the world before the n-th event. With `purge` this is the service; without, a
      service whose expire ends overdue sessions but never deletes a stale entry. */
  ghost predicate IsRun(ws: seq<World>, es: seq<Event>, purge: bool) {
    && |ws| == |es| + 1
    && (exists key, iceUrls :: ws[0] == Start(key, iceUrls))
    && forall n :: 0 <= n < |es| ==>
         Enabled(ws[n], es[n]) && Defined(ws[n].st, es[n].input) && ws[n + 1] == Step(ws[n], es[n], purge)
  }

  lemma PrefixIsRun(ws: seq<World>, es: seq<Event>, purge: bool)
    requires IsRun(ws, es, purge) && es != []
    ensures IsRun(ws[..|es|], es[..|es| - 1], purge)
  {
  }

  lemma ExtendsRun(ws: seq<World>, es: seq<Event>, e: Event, purge: bool)
    requires IsRun(ws, es, purge) && Enabled(ws[|es|], e) && Defined(ws[|es|].st, e.input)
    ensures IsRun(ws + [Step(ws[|es|], e, purge)], es + [e], purge)
  {
  }
}
