/** What the one account of such a run does: it registers, asks for challenges, enrols and revokes
    devices, requests sessions and decides on them. Each request leads from one scene to the next. */
module Clients {
  import opened Wrappers
  import opened Types
  import opened Permissions
  import opened Keys
  import opened Token
  import opened Model
  import opened Runs
  import opened Frames
  import opened Invariants
  import opened Access
  import opened Promises
  import opened Served
  import opened Requests

  // ---------- an account ----------

  lemma RegisterPlan(st: State, now: Time)
    requires st.accounts == map[] && st.emails == map[] && st.key == ""
    ensures var o := PlanRegister(st, true, MAIL, "A", PASSWORD, Name(0), Name(1), Name(2), now);
            && o.base.accounts == map[User() := Member()] && o.base.emails == map[MAIL := User()]
            && o.effect == Quiet && o.tail == [Audit(User(), AccountRegistered, User(), now)]
  {
  }

  /** Before anything has happened. */
  lemma Opening() returns (c: Course)
    ensures Going(c) && c.ws == [Start("", RELAYS)] && c.es == []
  {
    var start := Start("", RELAYS);
    assert [start][0] == start;
    c := Course([start], [], []);
  }

  lemma FirstArrival() returns (e: Event, w: World)
    ensures Moves(Start("", RELAYS), e, w) && e.input == Arrive("h", true)
    ensures Reply(Start("", RELAYS), e, true) == Admitted
    ensures w == World(Empty("", RELAYS).(rates := w.st.rates), {}, 0) && FewCalls(w.st.rates, 1)
  {
    var start := Start("", RELAYS);
    e := Event(Arrive("h", true), 0, []);
    ArrivePlan(start.st, true, 0, [], 0);
    ArriveFramed(start.st, "h", true, 0, [], true);
    w := Step(start, e, true);
    assert w.st.challenges == map[] && w.st.refresh == map[];
  }

  function RegisterInput(): Input {
    Register(true, MAIL, "A", PASSWORD, Name(0), Name(1), Name(2))
  }

  predicate NoLogout(h: seq<Audit>) {
    forall i :: 0 <= i < |h| ==> h[i].action != AccountLogout
  }

  const NOBODY: Scene := Scene(0, 1, 3, map[], map[], {})

  lemma ThreeNames()
    ensures Names(3) == {Name(0), Name(1), Name(2)} && NoDuplicates([Name(0), Name(1), Name(2)])
  {
    forall s | s in Names(3) ensures s in {Name(0), Name(1), Name(2)} {
      var k: nat :| k < 3 && s == Name(k);
    }
  }

  lemma RegisterEnabled(w: World, e: Event)
    requires w.st.sessions == map[] && w.st.key == "" && w.issued == {} && w.clock == 0
    requires e == Event(RegisterInput(), 0, [])
    ensures Enabled(w, e) && Names(3) == w.issued + set x | x in Draws(e.input)
  {
    ThreeNames();
  }

  lemma RegisterStep(w: World, rates: map<string, Rate>, e: Event)
    requires w == World(Empty("", RELAYS).(rates := rates), {}, 0) && FewCalls(rates, 1)
    requires e == Event(RegisterInput(), 0, [])
    ensures Enabled(w, e) && Shows(Step(w, e, true), NOBODY) && NoLogout(Step(w, e, true).st.history)
  {
    RegisterEnabled(w, e);
    RegisterPlan(w.st, 0);
    RegisterFramed(w.st, true, MAIL, "A", PASSWORD, Name(0), Name(1), Name(2), 0);
  }

  /** A run in which the account registers. */
  lemma Joining() returns (c: Course)
    ensures Stage(c, NOBODY) && NoLogout(Last(c).st.history)
  {
    var c0 := Opening();
    var e, w := FirstArrival();
    var register := Event(RegisterInput(), 0, []);
    RegisterStep(w, w.st.rates, register);
    c := ServingFirst(c0, e, w, register);
  }

  // ---------- challenges ----------

  lemma NextName(n: nat)
    ensures Names(n + 1) == Names(n) + {Name(n)} && Name(n) !in Names(n) && Name(n) != ""
  {
    OneMoreName(n);
    NameIsNew(n, n);
  }

  predicate HasChallenge(w: World, nonce: string, expires: Time) {
    nonce in w.st.challenges && w.st.challenges[nonce] == Challenge(User(), expires)
  }

  /** The handler's section goes through, and leads from one scene to the next. */
  ghost predicate Shifts(w: World, e: Event, s': Scene) {
    Enabled(w, e) && Defined(w.st, e.input) && Handles(e.input) && Shows(Step(w, e, true), s')
  }

  lemma Shifting(w: World, s: Scene, e: Event, drawn: nat, s': Scene)
    requires Shows(w, s) && Enabled(w, e) && Defined(w.st, e.input) && Handles(e.input) && !WritesAccounts(e.input)
    requires Names(drawn) == Names(s.drawn) + set x | x in Draws(e.input)
    requires s' == Next(s, Plan(w.st, e, true), e.now, drawn)
    ensures Shifts(w, e, s')
  {
    Handling(w, s, e, drawn);
  }

  lemma Proceeding(c: Course, v: Visit, e: Event, s: Scene) returns (c': Course)
    requires Going(c) && Comes(Last(c), v, e.input) && Shifts(v.ready, e, s)
    ensures Stage(c', s) && Last(c') == Step(v.ready, e, true)
  {
    c' := Serving(c, v, e);
  }

  lemma ChallengeEvent(w: World, s: Scene) returns (e: Event)
    requires Shows(w, s)
    ensures e.input == NewChallenge(User(), Name(s.drawn)) && Shifts(w, e, s.(drawn := s.drawn + 1))
    ensures HasChallenge(Step(w, e, true), Name(s.drawn), s.at + CHALLENGE_LIFETIME)
  {
    NextName(s.drawn);
    var order := OrderOf(w.st.sessions.Keys);
    e := Event(NewChallenge(User(), Name(s.drawn)), s.at, order);
    assert (set x | x in Draws(e.input)) == {Name(s.drawn)};
    Handling(w, s, e, s.drawn + 1);
  }

  /** A time at which the account's first access token is good and no prologue ends a session. */
  predicate Calm(s: Scene, at: Time) {
    s.at <= at && s.calls < 15 && InWindow(0, at) && NoneOverdue(s.sessions, at) && "" !in s.devices
  }

  function Asked(s: Scene, at: Time): Scene {
    s.(at := at, calls := s.calls + 1, drawn := s.drawn + 1)
  }

  lemma AskingVisit(w: World, s: Scene, at: Time) returns (v: Visit, e: Event)
    requires Shows(w, s) && Calm(s, at)
    ensures Comes(w, v, e.input) && Shifts(v.ready, e, Asked(s, at))
    ensures HasChallenge(Step(v.ready, e, true), Name(s.drawn), at + CHALLENGE_LIFETIME)
  {
    v := Coming(w, s, NewChallenge(User(), Name(s.drawn)), at, 0, "", at);
    e := ChallengeEvent(v.ready, Before(s, "", at));
  }

  /** The account asks for a challenge. */
  lemma Asking(c: Course, s: Scene, at: Time) returns (c': Course)
    requires Stage(c, s) && Calm(s, at)
    ensures Stage(c', Asked(s, at)) && HasChallenge(Last(c'), Name(s.drawn), at + CHALLENGE_LIFETIME)
  {
    var v, e := AskingVisit(Last(c), s, at);
    c' := Proceeding(c, v, e, Asked(s, at));
  }

  /** The challenge asked for last. */
  predicate Challenged(w: World, s: Scene, expires: Time) {
    Shows(w, s) && s.drawn > 0 && HasChallenge(w, Name(s.drawn - 1), expires) && s.at < expires
  }

  /** A request that uses it. */
  lemma Proving(w: World, s: Scene, i: Input, at: Time, id: Id, later: Time, expires: Time) returns (v: Visit)
    requires Challenged(w, s, expires) && Calm(s, at) && at <= later < expires && ActsFor(i) == Some(User())
    ensures Comes(w, v, i) && Challenged(v.ready, Before(s, id, later), expires)
  {
    v := Coming(w, s, i, at, 0, id, later);
  }

  function Signing(key: seq<nat>, method_: string, nonce: string): Proof {
    Proof(method_, "/", nonce, Signed(key, DeviceMessage(method_, "/", nonce)))
  }

  lemma SignedPasses(w: World, s: Scene, text: string, key: seq<nat>, expires: Time)
    requires Challenged(w, s, expires) && KeyOf(text) == Some(key)
    ensures ProofOk(w.st, User(), text, Signing(key, "POST", Name(s.drawn - 1)), s.at)
  {
  }

  /** The last event of the run, and the world before it. */
  predicate EndsWith(c: Course, w: World, e: Event) {
    |c.es| > 0 && |c.ws| == |c.es| + 1 && c.es[|c.es| - 1] == e && c.ws[|c.es| - 1] == w
  }

  lemma ServingEnds(c: Course, v: Visit, e: Event) returns (c': Course)
    requires Going(c) && Comes(Last(c), v, e.input) && Enabled(v.ready, e) && Defined(v.ready.st, e.input)
    ensures Going(c') && EndsWith(c', v.ready, e) && Last(c') == Step(v.ready, e, true)
  {
    c' := Serving(c, v, e);
  }

  // ---------- devices ----------

  function Pc(id: Id, text: string): DeviceRec {
    DeviceRec(id, User(), text, "A", "Windows 11", "pc", ZERO_TIME, false)
  }

  lemma EnrolPlan(st: State, p: Proof, text: string, id: Id, now: Time)
    requires ProofOk(st, User(), text, p, now) && |ActiveDevices(st.devices, User())| < MAX_DEVICES
    requires forall k :: k in st.devices ==> st.devices[k].key != text
    ensures var o := PlanRegisterDevice(st, User(), p, "A", text, "Windows 11", "pc", id, now);
            && o.base.devices == st.devices[id := Pc(id, text)] && o.effect == Quiet
            && o.reply == DeviceOut(201, Pc(id, text))
  {
    assert !exists h :: HoldsKey(st.devices, h, text);
  }

  function EnrolInput(s: Scene, text: string): Input
    requires KeyOf(text).Some? && s.drawn > 0
  {
    RegisterDevice(User(), Signing(KeyOf(text).value, "POST", Name(s.drawn - 1)), "A", text, "Windows 11", "pc",
                   Name(s.drawn))
  }

  function Enrolled(s: Scene, text: string): Scene {
    s.(drawn := s.drawn + 1, devices := s.devices[Name(s.drawn) := Pc(Name(s.drawn), text)])
  }

  predicate MayEnrol(devices: map<Id, DeviceRec>, text: string) {
    && KeyOf(text).Some? && |ActiveDevices(devices, User())| < MAX_DEVICES
    && forall k :: k in devices ==> devices[k].key != text
  }

  lemma EnrolEnabled(w: World, s: Scene, text: string) returns (e: Event)
    requires Shows(w, s) && s.drawn > 0 && KeyOf(text).Some?
    ensures e.input == EnrolInput(s, text) && e.now == s.at && Enabled(w, e)
    ensures Names(s.drawn + 1) == Names(s.drawn) + set x | x in Draws(e.input)
  {
    NextName(s.drawn);
    var order := OrderOf(w.st.sessions.Keys);
    e := Event(EnrolInput(s, text), s.at, order);
    assert (set x | x in Draws(e.input)) == {Name(s.drawn)};
  }

  lemma EnrolNext(w: World, s: Scene, text: string, expires: Time, e: Event)
    requires Challenged(w, s, expires) && MayEnrol(s.devices, text)
    requires e.input == EnrolInput(s, text) && e.now == s.at
    ensures Next(s, Plan(w.st, e, true), e.now, s.drawn + 1) == Enrolled(s, text)
  {
    SignedPasses(w, s, text, KeyOf(text).value, expires);
    EnrolPlan(w.st, e.input.proof, text, Name(s.drawn), s.at);
  }

  lemma EnrolEvent(w: World, s: Scene, text: string, expires: Time) returns (e: Event)
    requires Challenged(w, s, expires) && MayEnrol(s.devices, text)
    ensures e.input == EnrolInput(s, text) && Shifts(w, e, Enrolled(s, text))
  {
    e := EnrolEnabled(w, s, text);
    EnrolNext(w, s, text, expires, e);
    Shifting(w, s, e, s.drawn + 1, Enrolled(s, text));
  }

  function Now(s: Scene): Scene {
    Before(s, "", s.at)
  }

  lemma EnrolVisit(w: World, s: Scene, text: string, expires: Time) returns (v: Visit, e: Event)
    requires Challenged(w, s, expires) && Calm(s, s.at) && MayEnrol(s.devices, text)
    ensures Comes(w, v, e.input) && Shifts(v.ready, e, Enrolled(Now(s), text))
  {
    v := Proving(w, s, EnrolInput(Now(s), text), s.at, "", s.at, expires);
    e := EnrolEvent(v.ready, Now(s), text, expires);
  }

  function WithDevice(s: Scene, text: string): Scene {
    Enrolled(Now(Asked(s, s.at)), text)
  }

  /** The account enrols a device under the key text. */
  lemma Enrolling(c: Course, s: Scene, text: string) returns (c': Course)
    requires Stage(c, s) && Calm(s, s.at) && s.calls < 14 && MayEnrol(s.devices, text)
    ensures Stage(c', WithDevice(s, text))
  {
    var c1 := Asking(c, s, s.at);
    var v, e := EnrolVisit(Last(c1), Asked(s, s.at), text, s.at + CHALLENGE_LIFETIME);
    c' := Proceeding(c1, v, e, WithDevice(s, text));
  }

  // ---------- a session ----------

  /** The account's device, connected and seen at this moment. */
  predicate Here(s: Scene, id: Id) {
    && id in s.devices && s.devices[id].owner == User() && !s.devices[id].revoked
    && s.devices[id].lastSeen == s.at && id in s.peers
  }

  const WANTED := [View, Mouse]

  function Wanted(s: Scene, a: Id, b: Id): SessionRec
    requires a in s.devices && b in s.devices
  {
    SessionRec(Name(s.drawn), User(), a, b, Pending, WANTED, [], s.at, s.at + REQUEST_LIFETIME, 1,
               s.devices[a].key, s.devices[b].key)
  }

  function Proposed(s: Scene, a: Id, b: Id): Scene
    requires a in s.devices && b in s.devices
  {
    s.(drawn := s.drawn + 1, sessions := map[Name(s.drawn) := Wanted(s, a, b)])
  }

  function RequestInput(s: Scene, a: Id, b: Id, key: seq<nat>): Input
    requires s.drawn > 0
  {
    RequestSession(User(), Signing(key, "POST", Name(s.drawn - 1)), a, b, WANTED, Name(s.drawn))
  }

  predicate MayRequest(s: Scene, a: Id, b: Id, key: seq<nat>) {
    s.sessions == map[] && Here(s, a) && Here(s, b) && a != b && KeyOf(s.devices[a].key) == Some(key)
  }

  lemma RequestPlan(st: State, p: Proof, a: Id, b: Id, id: Id, now: Time)
    requires st.sessions == map[] && Live(st, a, now) && Live(st, b, now) && a != b
    requires st.devices[a].owner == User() && ProofOk(st, User(), st.devices[a].key, p, now)
    ensures var o := PlanRequest(st, User(), p, a, b, WANTED, id, now);
            var v := SessionRec(id, User(), a, b, Pending, WANTED, [], now, now + REQUEST_LIFETIME, 1,
                                st.devices[a].key, st.devices[b].key);
            o.base == Spend(st, p.nonce) && o.effect == Create(v)
  {
    assert OpenOf(st.sessions, User()) == {};
  }

  lemma RequestEnabled(w: World, s: Scene, a: Id, b: Id, key: seq<nat>) returns (e: Event)
    requires Shows(w, s) && s.drawn > 0
    ensures e.input == RequestInput(s, a, b, key) && e.now == s.at && Enabled(w, e)
    ensures Names(s.drawn + 1) == Names(s.drawn) + set x | x in Draws(e.input)
  {
    NextName(s.drawn);
    var order := OrderOf(w.st.sessions.Keys);
    e := Event(RequestInput(s, a, b, key), s.at, order);
    assert (set x | x in Draws(e.input)) == {Name(s.drawn)};
  }

  lemma HereIsLive(w: World, s: Scene, id: Id)
    requires Shows(w, s) && Here(s, id)
    ensures Live(w.st, id, s.at)
  {
  }

  lemma ProposedNext(s: Scene, o: Outcome, a: Id, b: Id)
    requires a in s.devices && b in s.devices && s.sessions == map[]
    requires o.base.devices == s.devices && o.base.sessions == s.sessions && o.effect == Create(Wanted(s, a, b))
    ensures Next(s, o, s.at, s.drawn + 1) == Proposed(s, a, b)
  {
  }

  lemma RequestGoes(w: World, s: Scene, a: Id, b: Id, key: seq<nat>, expires: Time)
    requires Challenged(w, s, expires) && MayRequest(s, a, b, key)
    ensures var p := Signing(key, "POST", Name(s.drawn - 1));
            var o := PlanRequest(w.st, User(), p, a, b, WANTED, Name(s.drawn), s.at);
            o.base.devices == s.devices && o.base.sessions == s.sessions && o.effect == Create(Wanted(s, a, b))
  {
    HereIsLive(w, s, a);
    HereIsLive(w, s, b);
    SignedPasses(w, s, s.devices[a].key, key, expires);
    RequestPlan(w.st, Signing(key, "POST", Name(s.drawn - 1)), a, b, Name(s.drawn), s.at);
  }

  lemma RequestNext(w: World, s: Scene, a: Id, b: Id, key: seq<nat>, expires: Time, e: Event)
    requires Challenged(w, s, expires) && MayRequest(s, a, b, key)
    requires e.input == RequestInput(s, a, b, key) && e.now == s.at
    ensures Next(s, Plan(w.st, e, true), e.now, s.drawn + 1) == Proposed(s, a, b)
  {
    RequestGoes(w, s, a, b, key, expires);
    ProposedNext(s, Plan(w.st, e, true), a, b);
  }

  lemma RequestEvent(w: World, s: Scene, a: Id, b: Id, key: seq<nat>, expires: Time) returns (e: Event)
    requires Challenged(w, s, expires) && MayRequest(s, a, b, key)
    ensures e.input == RequestInput(s, a, b, key) && Shifts(w, e, Proposed(s, a, b))
  {
    e := RequestEnabled(w, s, a, b, key);
    RequestNext(w, s, a, b, key, expires, e);
    Shifting(w, s, e, s.drawn + 1, Proposed(s, a, b));
  }

  lemma RequestVisit(w: World, s: Scene, a: Id, b: Id, key: seq<nat>, expires: Time) returns (v: Visit, e: Event)
    requires Challenged(w, s, expires) && Calm(s, s.at) && MayRequest(s, a, b, key)
    ensures Comes(w, v, e.input) && Shifts(v.ready, e, Proposed(Now(s), a, b))
  {
    v := Proving(w, s, RequestInput(Now(s), a, b, key), s.at, "", s.at, expires);
    e := RequestEvent(v.ready, Now(s), a, b, key, expires);
  }

  function WithRequest(s: Scene, a: Id, b: Id): Scene
    requires a in s.devices && b in s.devices
  {
    Proposed(Now(Asked(s, s.at)), a, b)
  }

  /** The account requests a session between two of its devices. */
  lemma Requesting(c: Course, s: Scene, a: Id, b: Id, key: seq<nat>) returns (c': Course)
    requires Stage(c, s) && Calm(s, s.at) && s.calls < 14 && MayRequest(s, a, b, key)
    ensures Stage(c', WithRequest(s, a, b))
  {
    var c1 := Asking(c, s, s.at);
    var v, e := RequestVisit(Last(c1), Asked(s, s.at), a, b, key, s.at + CHALLENGE_LIFETIME);
    c' := Proceeding(c1, v, e, WithRequest(s, a, b));
  }

  // ---------- the target's owner ----------

  /** The one session there is. */
  predicate Only(s: Scene, id: Id, v: SessionRec, key: seq<nat>) {
    && s.sessions == map[id := v] && v.operator == User() && v.requested == WANTED
    && Here(s, v.target) && KeyOf(s.devices[v.target].key) == Some(key)
  }

  function Changed(s: Scene, id: Id, v: SessionRec): Scene {
    s.(sessions := map[id := v])
  }

  lemma GatePasses(w: World, s: Scene, id: Id, v: SessionRec, key: seq<nat>, expires: Time)
    requires Challenged(w, s, expires) && Only(s, id, v, key)
    ensures TargetsExist(w.st)
    ensures var p := Signing(key, "POST", Name(s.drawn - 1));
            TargetGate(w.st, User(), p, id, s.at) == Pass(Spend(w.st, p.nonce))
  {
    HereIsLive(w, s, v.target);
    SignedPasses(w, s, s.devices[v.target].key, key, expires);
  }

  lemma GateEnabled(w: World, s: Scene, i: Input) returns (e: Event)
    requires Shows(w, s) && Draws(i) == [] && ActsFor(i) == Some(User()) && Handles(i)
    ensures e.input == i && e.now == s.at && Enabled(w, e)
    ensures Names(s.drawn) == Names(s.drawn) + set x | x in Draws(e.input)
  {
    var order := OrderOf(w.st.sessions.Keys);
    e := Event(i, s.at, order);
    assert (set x | x in Draws(e.input)) == {};
  }

  function DecideInput(s: Scene, id: Id, key: seq<nat>): Input
    requires s.drawn > 0
  {
    Decide(User(), Signing(key, "POST", Name(s.drawn - 1)), id, true, [View])
  }

  function Allowed(v: SessionRec, at: Time): SessionRec {
    Activate(v, [View], at + SESSION_LIFETIME)
  }

  lemma DecidePlan(st: State, id: Id, now: Time)
    requires id in st.sessions && st.sessions[id].state == Pending && st.sessions[id].requested == WANTED
    ensures var o := DecideOn(st, User(), id, true, [View], now);
            o.base == st && o.effect == Approve(id, [View], now + SESSION_LIFETIME, User())
  {
    assert ValidGrant([View]);
  }

  lemma ApprovedNext(s: Scene, o: Outcome, id: Id, v: SessionRec)
    requires s.sessions == map[id := v] && o.base.devices == s.devices && o.base.sessions == s.sessions
    requires o.effect == Approve(id, [View], s.at + SESSION_LIFETIME, User())
    ensures Next(s, o, s.at, s.drawn) == Changed(s, id, Allowed(v, s.at))
  {
  }

  lemma DecideNext(w: World, s: Scene, id: Id, v: SessionRec, key: seq<nat>, expires: Time, e: Event)
    requires Challenged(w, s, expires) && Only(s, id, v, key) && v.state == Pending
    requires e.input == DecideInput(s, id, key) && e.now == s.at
    ensures Defined(w.st, e.input)
    ensures Next(s, Plan(w.st, e, true), e.now, s.drawn) == Changed(s, id, Allowed(v, s.at))
  {
    GatePasses(w, s, id, v, key, expires);
    DecidePlan(Spend(w.st, e.input.proof.nonce), id, s.at);
    ApprovedNext(s, Plan(w.st, e, true), id, v);
  }

  lemma DecideEvent(w: World, s: Scene, id: Id, v: SessionRec, key: seq<nat>, expires: Time) returns (e: Event)
    requires Challenged(w, s, expires) && Only(s, id, v, key) && v.state == Pending
    ensures e.input == DecideInput(s, id, key) && Shifts(w, e, Changed(s, id, Allowed(v, s.at)))
  {
    e := GateEnabled(w, s, DecideInput(s, id, key));
    DecideNext(w, s, id, v, key, expires, e);
    Shifting(w, s, e, s.drawn, Changed(s, id, Allowed(v, s.at)));
  }

  function WithApproval(s: Scene, asked: Time, later: Time, id: Id, v: SessionRec): Scene {
    Changed(Before(Asked(s, asked), v.target, later), id, Allowed(v, later))
  }

  lemma DecideVisit(w: World, s: Scene, later: Time, id: Id, v: SessionRec, key: seq<nat>, expires: Time)
      returns (x: Visit, e: Event)
    requires Challenged(w, s, expires) && Calm(s, s.at) && s.at <= later < expires
    requires Only(Before(s, v.target, later), id, v, key) && v.state == Pending
    ensures Comes(w, x, e.input)
    ensures Shifts(x.ready, e, Changed(Before(s, v.target, later), id, Allowed(v, later)))
  {
    var s' := Before(s, v.target, later);
    x := Proving(w, s, DecideInput(s', id, key), s.at, v.target, later, expires);
    e := DecideEvent(x.ready, s', id, v, key, expires);
  }

  /** The owner asks for a challenge while the request lasts and approves while the challenge does. */
  lemma Approving(c: Course, s: Scene, asked: Time, later: Time, id: Id, v: SessionRec, key: seq<nat>)
      returns (c': Course)
    requires Stage(c, s) && Calm(s, asked) && s.calls < 14 && asked <= later < asked + CHALLENGE_LIFETIME
    requires Only(Before(Asked(s, asked), v.target, later), id, v, key) && v.state == Pending
    ensures Stage(c', WithApproval(s, asked, later, id, v))
  {
    var c1 := Asking(c, s, asked);
    var x, e := DecideVisit(Last(c1), Asked(s, asked), later, id, v, key, asked + CHALLENGE_LIFETIME);
    c' := Proceeding(c1, x, e, WithApproval(s, asked, later, id, v));
  }

  function HandInput(s: Scene, id: Id, key: seq<nat>): Input
    requires s.drawn > 0
  {
    HandControl(User(), Signing(key, "POST", Name(s.drawn - 1)), id)
  }

  lemma HandPlan(st: State, id: Id)
    requires id in st.sessions && st.sessions[id].state == Active && st.sessions[id].requested == WANTED
    ensures var o := HandoverTo(st, User(), id);
            o.base == st && o.effect == Handover(id, User()) && o.reply.SessionOut?
  {
    assert Controls(WANTED);
  }

  lemma HandedNext(s: Scene, o: Outcome, id: Id, v: SessionRec)
    requires s.sessions == map[id := v] && o.base.devices == s.devices && o.base.sessions == s.sessions
    requires o.effect == Handover(id, User())
    ensures Next(s, o, s.at, s.drawn) == Changed(s, id, TakeOver(v))
  {
  }

  lemma HandNext(w: World, s: Scene, id: Id, v: SessionRec, key: seq<nat>, expires: Time, e: Event)
    requires Challenged(w, s, expires) && Only(s, id, v, key) && v.state == Active
    requires e.input == HandInput(s, id, key) && e.now == s.at
    ensures Defined(w.st, e.input) && HandsTo(w, e, true, id)
    ensures Next(s, Plan(w.st, e, true), e.now, s.drawn) == Changed(s, id, TakeOver(v))
  {
    GatePasses(w, s, id, v, key, expires);
    HandPlan(Spend(w.st, e.input.proof.nonce), id);
    HandedNext(s, Plan(w.st, e, true), id, v);
  }

  lemma HandEvent(w: World, s: Scene, id: Id, v: SessionRec, key: seq<nat>, expires: Time) returns (e: Event)
    requires Challenged(w, s, expires) && Only(s, id, v, key) && v.state == Active
    ensures e.input == HandInput(s, id, key) && Shifts(w, e, Changed(s, id, TakeOver(v))) && HandsTo(w, e, true, id)
  {
    e := GateEnabled(w, s, HandInput(s, id, key));
    HandNext(w, s, id, v, key, expires, e);
    Shifting(w, s, e, s.drawn, Changed(s, id, TakeOver(v)));
  }

  lemma HandVisit(w: World, s: Scene, id: Id, v: SessionRec, key: seq<nat>, expires: Time)
      returns (x: Visit, e: Event)
    requires Challenged(w, s, expires) && Calm(s, s.at) && Only(s, id, v, key) && v.state == Active
    ensures Comes(w, x, e.input) && HandsTo(x.ready, e, true, id)
    ensures Shifts(x.ready, e, Changed(Now(s), id, TakeOver(v)))
  {
    x := Proving(w, s, HandInput(Now(s), id, key), s.at, "", s.at, expires);
    e := HandEvent(x.ready, Now(s), id, v, key, expires);
  }

  // ---------- a login ----------

  function LoginInput(s: Scene): Input {
    Login(MAIL, PASSWORD, Name(s.drawn), Name(s.drawn + 1))
  }

  lemma LoginEvent(w: World, s: Scene) returns (e: Event)
    requires Shows(w, s)
    ensures e.input == LoginInput(s) && Shifts(w, e, s.(drawn := s.drawn + 2))
  {
    NextName(s.drawn);
    NextName(s.drawn + 1);
    var order := OrderOf(w.st.sessions.Keys);
    e := Event(LoginInput(s), s.at, order);
    assert (set x | x in Draws(e.input)) == {Name(s.drawn), Name(s.drawn + 1)};
    LoginFramed(w.st, MAIL, PASSWORD, Name(s.drawn), Name(s.drawn + 1), s.at);
    Shifting(w, s, e, s.drawn + 2, s.(drawn := s.drawn + 2));
  }

  /** The account logs in, which gives it a new access token. */
  lemma LoggingIn(c: Course, s: Scene, at: Time) returns (c': Course)
    requires Stage(c, s) && at >= s.at && s.calls < 15 && NoneOverdue(s.sessions, at)
    ensures Stage(c', s.(at := at, calls := s.calls + 1, drawn := s.drawn + 2))
  {
    var arrive, w := Admitting(Last(c), s, true, at);
    var e := LoginEvent(w, s.(at := at, calls := s.calls + 1));
    c' := ServingFirst(c, arrive, w, e);
  }

  // ---------- a revocation ----------

  lemma RevokeEvent(w: World, s: Scene, id: Id) returns (e: Event)
    requires Shows(w, s) && s.sessions == map[] && id in s.devices && s.devices[id].owner == User()
    ensures e.input == RevokeDevice(User(), id)
    ensures Shifts(w, e, s.(devices := s.devices[id := s.devices[id].(revoked := true)]))
  {
    e := GateEnabled(w, s, RevokeDevice(User(), id));
    RevokePlan(w.st, id, s.at, e.order);
    Shifting(w, s, e, s.drawn, s.(devices := s.devices[id := s.devices[id].(revoked := true)]));
  }

  lemma RevokePlan(st: State, id: Id, now: Time, order: seq<Id>)
    requires st.sessions == map[] && id in st.devices && st.devices[id].owner == User()
    ensures var o := PlanRevokeDevice(st, User(), id, now, order);
            && o.base == st.(devices := st.devices[id := st.devices[id].(revoked := true)]) && After(o) == map[]
  {
  }

  lemma RevokeVisit(w: World, s: Scene, id: Id) returns (v: Visit, e: Event)
    requires Shows(w, s) && Calm(s, s.at)
    requires s.sessions == map[] && id in s.devices && s.devices[id].owner == User()
    ensures Comes(w, v, e.input) && Shifts(v.ready, e, WithRevoked(s, id))
  {
    v := Coming(w, s, RevokeDevice(User(), id), s.at, 0, "", s.at);
    e := RevokeEvent(v.ready, Now(s), id);
  }

  function WithRevoked(s: Scene, id: Id): Scene
    requires id in s.devices
  {
    s.(calls := s.calls + 1, devices := s.devices[id := s.devices[id].(revoked := true)])
  }
}
