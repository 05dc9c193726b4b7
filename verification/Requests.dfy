/** Building served runs, request by request. */
module Requests {
  import opened Wrappers
  import opened Types
  import opened Token
  import opened Model
  import opened Runs
  import opened Frames
  import opened Invariants
  import opened Access
  import opened Served

  // ---------- extending a run ----------

  lemma {:induction false} OrderOf(keys: set<Id>) returns (order: seq<Id>)
    ensures IsOrder(order, keys)
  {
    if keys == {} {
      order := [];
    } else {
      var k :| k in keys;
      var rest := OrderOf(keys - {k});
      order := rest + [k];
    }
  }

  /** A prologue at p, a check at c, and no handler since. */
  ghost predicate Entered(ws: seq<World>, es: seq<Event>, way: Way, i: Input)
    requires |ws| == |es| + 1
  {
    var p, c := way.prologue, way.check;
    && p < c <= |es|
    && es[p].input.Arrive? && es[p].input.authPath == IsAuth(i)
    && Defined(ws[p].st, es[p].input) && Reply(ws[p], es[p], true) == Admitted
    && (ActsFor(i).Some? ==>
          && c < |es| && es[c].input.VerifyAccess? && Defined(ws[c].st, es[c].input)
          && Reply(ws[c], es[c], true) == Subject(ActsFor(i).value))
    && ws[|es|].issued == ws[p].issued
    && forall m :: p <= m < |es| ==> !Handles(es[m].input)
  }

  lemma LeadsStill(ws: seq<World>, es: seq<Event>, w: World, e: Event, n: nat, way: Way)
    requires |ws| == |es| + 1 && n < |es| && Leads(ws, es, true, n, way)
    ensures Leads(ws + [w], es + [e], true, n, way)
  {
    var more, all := ws + [w], es + [e];
    assert forall k :: 0 <= k < |ws| ==> more[k] == ws[k];
    assert forall k :: 0 <= k < |es| ==> all[k] == es[k];
  }

  lemma LeadsNow(ws: seq<World>, es: seq<Event>, w: World, e: Event, way: Way)
    requires |ws| == |es| + 1 && Entered(ws, es, way, e.input)
    ensures Leads(ws + [w], es + [e], true, |es|, way)
  {
    var more, all := ws + [w], es + [e];
    assert forall k :: 0 <= k < |ws| ==> more[k] == ws[k];
    assert forall k :: 0 <= k < |es| ==> all[k] == es[k];
    assert all[|es|] == e;
  }

  lemma LeadsEach(ws: seq<World>, es: seq<Event>, ways: seq<Way>, w: World, e: Event, way: Way, n: nat)
    requires IsServed(ws, es, true, ways) && (Handles(e.input) ==> Entered(ws, es, way, e.input))
    requires n <= |es| && Handles((es + [e])[n].input)
    ensures Leads(ws + [w], es + [e], true, n, (ways + [way])[n])
  {
    if n < |es| {
      LeadsStill(ws, es, w, e, n, ways[n]);
    } else {
      LeadsNow(ws, es, w, e, way);
    }
  }

  lemma ServedMore(ws: seq<World>, es: seq<Event>, ways: seq<Way>, w: World, e: Event, way: Way)
    requires IsServed(ws, es, true, ways) && (Handles(e.input) ==> Entered(ws, es, way, e.input))
    ensures IsServed(ws + [w], es + [e], true, ways + [way])
  {
    var all, ways' := es + [e], ways + [way];
    forall n | 0 <= n < |all| && Handles(all[n].input) ensures Leads(ws + [w], all, true, n, ways'[n]) {
      LeadsEach(ws, es, ways, w, e, way, n);
    }
    forall m, n | 0 <= m < n < |all| && Handles(all[m].input) && Handles(all[n].input)
      ensures ways'[m].prologue != ways'[n].prologue && ways'[m].check != ways'[n].check
    {
      assert Leads(ws, es, true, m, ways[m]);
    }
  }

  // ---------- a run so far ----------

  datatype Course = Course(ws: seq<World>, es: seq<Event>, ways: seq<Way>)

  ghost predicate Going(c: Course) {
    IsRun(c.ws, c.es, true) && IsServed(c.ws, c.es, true, c.ways)
  }

  function Last(c: Course): World
    requires c.ws != []
  {
    c.ws[|c.ws| - 1]
  }

  lemma More(c: Course, e: Event, way: Way) returns (c': Course)
    requires Going(c) && Enabled(Last(c), e) && Defined(Last(c).st, e.input)
    requires Handles(e.input) ==> Entered(c.ws, c.es, way, e.input)
    ensures Going(c') && c'.es == c.es + [e] && c'.ws == c.ws + [Step(Last(c), e, true)]
  {
    ExtendsRun(c.ws, c.es, e, true);
    var w := Step(Last(c), e, true);
    ServedMore(c.ws, c.es, c.ways, w, e, way);
    c' := Course(c.ws + [w], c.es + [e], c.ways + [way]);
  }

  // ---------- one request ----------

  ghost predicate Moves(w: World, e: Event, w': World) {
    Enabled(w, e) && Defined(w.st, e.input) && w' == Step(w, e, true)
  }

  /** A request on its way to its handler: its prologue, the check of its token, and a device being seen
      while it waits, each with the world it leads to. */
  datatype Visit = Visit(arrive: Event, admitted: World, check: Event, checked: World, touch: Event, ready: World)

  ghost predicate Comes(w: World, v: Visit, i: Input) {
    && Moves(w, v.arrive, v.admitted) && Moves(v.admitted, v.check, v.checked) && Moves(v.checked, v.touch, v.ready)
    && v.arrive.input.Arrive? && v.arrive.input.authPath == IsAuth(i) && Reply(w, v.arrive, true) == Admitted
    && v.check.input.VerifyAccess? && ActsFor(i).Some?
    && Reply(v.admitted, v.check, true) == Subject(ActsFor(i).value)
    && v.touch.input.Touch? && v.ready.issued == w.issued
  }

  /** The run goes on with a section that is no handler. */
  lemma Adding(c: Course, e: Event, w: World) returns (c': Course)
    requires Going(c) && Moves(Last(c), e, w) && !Handles(e.input)
    ensures Going(c') && c'.es == c.es + [e] && c'.ws == c.ws + [w]
  {
    c' := More(c, e, Way(0, 0));
  }

  lemma OneByOne<T>(s: seq<T>, a: T, b: T, c: T)
    ensures s + [a] + [b] + [c] == s + [a, b, c]
  {
  }

  lemma LastOfFour<T>(s: seq<T>, a: T, b: T, c: T, d: T)
    ensures s + [a, b, c] + [d] == s + [a, b, c, d]
  {
  }

  lemma Waiting(c: Course, v: Visit, i: Input) returns (c': Course)
    requires Going(c) && Comes(Last(c), v, i)
    ensures Going(c') && c'.es == c.es + [v.arrive, v.check, v.touch]
    ensures c'.ws == c.ws + [v.admitted, v.checked, v.ready]
  {
    var c1 := Adding(c, v.arrive, v.admitted);
    var c2 := Adding(c1, v.check, v.checked);
    c' := Adding(c2, v.touch, v.ready);
    OneByOne(c.es, v.arrive, v.check, v.touch);
    OneByOne(c.ws, v.admitted, v.checked, v.ready);
  }

  lemma EnteredNow(c: Course, c': Course, v: Visit, i: Input)
    requires |c.ws| == |c.es| + 1 && |c'.ws| == |c'.es| + 1 && Comes(Last(c), v, i)
    requires c'.es == c.es + [v.arrive, v.check, v.touch] && c'.ws == c.ws + [v.admitted, v.checked, v.ready]
    ensures Entered(c'.ws, c'.es, Way(|c.es|, |c.es| + 1), i)
  {
  }

  /** The run goes on with the request and its handler. */
  lemma Serving(c: Course, v: Visit, e: Event) returns (c': Course)
    requires Going(c) && Comes(Last(c), v, e.input) && Enabled(v.ready, e) && Defined(v.ready.st, e.input)
    ensures Going(c') && c'.es == c.es + [v.arrive, v.check, v.touch, e]
    ensures c'.ws == c.ws + [v.admitted, v.checked, v.ready, Step(v.ready, e, true)]
  {
    var c3 := Waiting(c, v, e.input);
    EnteredNow(c, c3, v, e.input);
    c' := More(c3, e, Way(|c.es|, |c.es| + 1));
    LastOfFour(c.es, v.arrive, v.check, v.touch, e);
    LastOfFour(c.ws, v.admitted, v.checked, v.ready, Step(v.ready, e, true));
  }

  /** The same for a request without an access token. */
  lemma ServingFirst(c: Course, arrive: Event, w: World, e: Event) returns (c': Course)
    requires Going(c) && Moves(Last(c), arrive, w) && Enabled(w, e) && Defined(w.st, e.input)
    requires arrive.input.Arrive? && Reply(Last(c), arrive, true) == Admitted && w.issued == Last(c).issued
    requires IsAuth(e.input) && arrive.input.authPath && ActsFor(e.input).None?
    ensures Going(c') && c'.es == c.es + [arrive, e] && c'.ws == c.ws + [w, Step(w, e, true)]
  {
    var c1 := Adding(c, arrive, w);
    var way := Way(|c.es|, |c.es| + 1);
    assert Entered(c1.ws, c1.es, way, e.input);
    c' := More(c1, e, way);
  }

  // ---------- names and one account ----------

  /** The k-th name that the server draws. */
  function Name(k: nat): (s: string)
    ensures |s| == k + 1
  {
    seq(k + 1, _ => 'n')
  }

  function Names(n: nat): set<string> {
    set k: nat | k < n :: Name(k)
  }

  lemma NameIsNew(n: nat, k: nat)
    requires n <= k
    ensures Name(k) !in Names(n) && Name(k) != ""
  {
  }

  lemma OneMoreName(n: nat)
    ensures Names(n + 1) == Names(n) + {Name(n)}
  {
  }

  const RELAYS := ["turn:relay"]
  const MAIL := "m@x"
  const PASSWORD := "correct horse battery"

  function User(): Id {
    Name(0)
  }

  function Member(): AccountRec {
    AccountRec(User(), MAIL, "A", PasswordHash(PASSWORD), 0)
  }

  /** Where such a run stands: the time, how many requests it took, how many names are drawn. */
  datatype Scene = Scene(at: Time, calls: nat, drawn: nat, devices: map<Id, DeviceRec>,
                         sessions: map<Id, SessionRec>, peers: set<Id>)

  predicate FewCalls(rates: map<string, Rate>, calls: nat) {
    forall k :: k in rates ==> rates[k].count <= calls
  }

  /** The parts of the state that the scene does not mention. */
  predicate Settled(st: State, calls: nat) {
    && st.accounts == map[User() := Member()] && st.emails == map[MAIL := User()]
    && st.key == "" && st.iceUrls == RELAYS && FewCalls(st.rates, calls)
  }

  predicate Shows(w: World, s: Scene) {
    && 0 <= w.clock == s.at && w.issued == Names(s.drawn) && Settled(w.st, s.calls)
    && w.st.devices == s.devices && w.st.sessions == s.sessions && w.st.peers == s.peers
  }

  ghost predicate Stage(c: Course, s: Scene) {
    Going(c) && Shows(Last(c), s)
  }

  // ---------- prologue and access check ----------

  predicate NoneOverdue(sessions: map<Id, SessionRec>, at: Time) {
    forall id :: id in sessions && Open(sessions[id]) ==> at < sessions[id].expires
  }

  predicate KeepsChallenges(c: map<string, Challenge>, c': map<string, Challenge>, at: Time) {
    forall n :: n in c && at < c[n].expires ==> n in c' && c'[n] == c[n]
  }

  lemma {:induction false} NothingEnds(devices: map<Id, DeviceRec>, sessions: map<Id, SessionRec>, at: Time,
                                       order: seq<Id>)
    requires NoneOverdue(sessions, at)
    ensures EndEvents(devices, sessions, Overdue(at), Expired, SYSTEM, order, at) == []
  {
    if order != [] {
      NothingEnds(devices, sessions, at, order[..|order| - 1]);
    }
  }

  lemma ArrivePlan(st: State, authPath: bool, at: Time, order: seq<Id>, calls: nat)
    requires at >= 0 && FewCalls(st.rates, calls) && calls < 15 && NoneOverdue(st.sessions, at)
    ensures var o := PlanArrive(st, "h", authPath, at, order, true);
            && o.reply == Admitted && Commit(o, at).sessions == st.sessions
            && Commit(o, at).history == st.history
            && FewCalls(o.base.rates, calls + 1) && KeepsChallenges(st.challenges, o.base.challenges, at)
  {
    NothingEnds(st.devices, st.sessions, at, order);
    var o := PlanArrive(st, "h", authPath, at, order, true);
    assert ApplyEffect(st.devices, st.sessions, o.effect) == st.sessions;
  }

  lemma Admitting(w: World, s: Scene, authPath: bool, at: Time) returns (e: Event, w': World)
    requires Shows(w, s) && at >= s.at && s.calls < 15 && NoneOverdue(s.sessions, at)
    ensures e.input == Arrive("h", authPath) && Moves(w, e, w') && Reply(w, e, true) == Admitted
    ensures Shows(w', s.(at := at, calls := s.calls + 1)) && w'.st.history == w.st.history
    ensures KeepsChallenges(w.st.challenges, w'.st.challenges, at)
  {
    var order := OrderOf(w.st.sessions.Keys);
    e := Event(Arrive("h", authPath), at, order);
    ArrivePlan(w.st, authPath, at, order, s.calls);
    ArriveFramed(w.st, "h", authPath, at, order, true);
    w' := Step(w, e, true);
  }

  /** What the account's access token, signed at t, is answered with. */
  lemma CheckPlan(st: State, calls: nat, t: Time, at: Time)
    requires Settled(st, calls) && InWindow(t, at)
    ensures var o := PlanVerifyAccess(st, Sign("", User(), 0, t), at);
            o.reply == Subject(User()) && Commit(o, at) == st
  {
    SignedIsTaken(st, User(), 0, t, at);
    assert st.history + [] + [] == st.history;
  }

  lemma Checking(w: World, s: Scene, t: Time) returns (e: Event, w': World)
    requires Shows(w, s) && InWindow(t, s.at)
    ensures e.input.VerifyAccess? && Moves(w, e, w') && w' == w && Reply(w, e, true) == Subject(User())
  {
    CheckPlan(w.st, s.calls, t, s.at);
    var order := OrderOf(w.st.sessions.Keys);
    e := Event(VerifyAccess(Sign("", User(), 0, t), s.at), s.at, order);
    w' := Step(w, e, true);
  }

  // ---------- the environment ----------

  function Seen(devices: map<Id, DeviceRec>, id: Id, at: Time): map<Id, DeviceRec> {
    if id in devices then devices[id := devices[id].(lastSeen := at)] else devices
  }

  lemma TouchPlan(st: State, id: Id, now: Time)
    ensures Commit(PlanTouch(st, id, now), now) == st.(devices := Seen(st.devices, id, now))
  {
    assert st.history + [] + [] == st.history;
  }

  lemma Touching(w: World, s: Scene, id: Id, at: Time) returns (e: Event, w': World)
    requires Shows(w, s) && at >= s.at
    ensures e.input == Touch(id) && Moves(w, e, w') && Shows(w', s.(at := at, devices := Seen(s.devices, id, at)))
    ensures w'.st.challenges == w.st.challenges && w'.st.history == w.st.history
  {
    var order := OrderOf(w.st.sessions.Keys);
    e := Event(Touch(id), at, order);
    TouchPlan(w.st, id, at);
    w' := Step(w, e, true);
  }

  lemma Connecting(w: World, s: Scene, id: Id) returns (e: Event, w': World)
    requires Shows(w, s)
    ensures e.input == Connect(id) && Moves(w, e, w') && Shows(w', s.(peers := s.peers + {id}))
    ensures w'.st.history == w.st.history
  {
    assert w.st.history + [] + [] == w.st.history;
    var order := OrderOf(w.st.sessions.Keys);
    e := Event(Connect(id), s.at, order);
    w' := Step(w, e, true);
  }

  /** A device connects and is seen. */
  lemma Appearing(c: Course, s: Scene, id: Id) returns (c': Course)
    requires Stage(c, s)
    ensures Stage(c', s.(peers := s.peers + {id}, devices := Seen(s.devices, id, s.at)))
  {
    var e1, w1 := Connecting(Last(c), s, id);
    var c1 := Adding(c, e1, w1);
    var e2, w2 := Touching(w1, s.(peers := s.peers + {id}), id, s.at);
    c' := Adding(c1, e2, w2);
  }

  // ---------- requests of the account ----------

  /** The scene when a request that arrives at one time is before its handler at a later one. */
  function Before(s: Scene, id: Id, later: Time): Scene {
    s.(at := later, calls := s.calls + 1, devices := Seen(s.devices, id, later))
  }

  /** A request of the account, with a token that was signed at t. */
  lemma Coming(w: World, s: Scene, i: Input, at: Time, t: Time, id: Id, later: Time) returns (v: Visit)
    requires Shows(w, s) && s.at <= at <= later && s.calls < 15 && NoneOverdue(s.sessions, at)
    requires InWindow(t, at) && ActsFor(i) == Some(User())
    ensures Comes(w, v, i) && Shows(v.ready, Before(s, id, later))
    ensures KeepsChallenges(w.st.challenges, v.ready.st.challenges, at) && v.ready.st.history == w.st.history
  {
    var e1, w1 := Admitting(w, s, IsAuth(i), at);
    var s1 := s.(at := at, calls := s.calls + 1);
    var e2, w2 := Checking(w1, s1, t);
    var e3, w3 := Touching(w2, s1, id, later);
    v := Visit(e1, w1, e2, w2, e3, w3);
  }

  // ---------- the handler ----------

  /** The scene after a handler that writes no account. */
  function Next(s: Scene, o: Outcome, now: Time, drawn: nat): Scene {
    s.(at := now, drawn := drawn, devices := o.base.devices, sessions := After(o))
  }

  predicate WritesAccounts(i: Input) {
    i.Register? || i.Rotate? || i.Logout?
  }

  lemma Handling(w: World, s: Scene, e: Event, drawn: nat)
    requires Shows(w, s) && Handles(e.input) && !WritesAccounts(e.input)
    requires Enabled(w, e) && Defined(w.st, e.input)
    requires Names(drawn) == Names(s.drawn) + set x | x in Draws(e.input)
    ensures Shows(Step(w, e, true), Next(s, Plan(w.st, e, true), e.now, drawn))
  {
    PlanFramed(w.st, e, true);
  }
}
