/** The promises are about something: served runs that reach an active session and a handover, that come
    as near to a bound as can be, and in which a lookup, a credential or a revocation fails. */
module Reachable {
  import opened Wrappers
  import opened Base64
  import opened Types
  import opened Permissions
  import opened Keys
  import opened Token
  import opened Model
  import opened Runs
  import opened Invariants
  import opened Crashes
  import opened Promises
  import opened Lifetime
  import opened Requests
  import opened Clients

  // ---------- two devices ----------

  function Key(n: Byte): seq<Byte> {
    seq(KEY_BYTES, _ => n)
  }

  function Text(n: Byte): string {
    Encode(Key(n))
  }

  lemma TextsAreKeys()
    ensures KeyOf(Text(1)) == Some(Key(1)) && KeyOf(Text(2)) == Some(Key(2)) && Text(1) != Text(2)
  {
    EncodedKey(Key(1));
    EncodedKey(Key(2));
    assert Key(1)[0] != Key(2)[0];
  }

  function PC1(): Id {
    Name(4)
  }

  function PC2(): Id {
    Name(6)
  }

  function OneDevice(text: string): Scene {
    Scene(0, 3, 5, map[PC1() := Pc(PC1(), text)], map[], {})
  }

  function TwoDevices(text: string, text': string): Scene {
    Scene(0, 5, 7, map[PC1() := Pc(PC1(), text), PC2() := Pc(PC2(), text')], map[], {})
  }

  /** A run in which the account enrols one device. */
  lemma EnrollingOne(text: string) returns (c: Course)
    requires KeyOf(text).Some?
    ensures Stage(c, OneDevice(text))
  {
    var c0 := Joining();
    NoneActive();
    assert WithDevice(NOBODY, text) == OneDevice(text);
    c := Enrolling(c0, NOBODY, text);
  }

  lemma NoneActive()
    ensures ActiveDevices(map[], User()) == {}
  {
  }

  lemma OneActive(text: string)
    ensures |ActiveDevices(OneDevice(text).devices, User())| < MAX_DEVICES
  {
    SubsetSize(ActiveDevices(OneDevice(text).devices, User()), {PC1()});
  }

  lemma EnrollingTwo(text: string, text': string) returns (c: Course)
    requires KeyOf(text).Some? && KeyOf(text').Some? && text != text'
    ensures Stage(c, TwoDevices(text, text'))
  {
    var c0 := EnrollingOne(text);
    OneActive(text);
    assert WithDevice(OneDevice(text), text') == TwoDevices(text, text');
    c := Enrolling(c0, OneDevice(text), text');
  }

  function Appeared(s: Scene, id: Id): Scene {
    s.(peers := s.peers + {id}, devices := Seen(s.devices, id, s.at))
  }

  function Both(): Scene {
    Appeared(Appeared(TwoDevices(Text(1), Text(2)), PC1()), PC2())
  }

  lemma BothAreHere()
    ensures Here(Both(), PC1()) && Here(Both(), PC2()) && PC1() != PC2() && "" !in Both().devices
    ensures Both().devices[PC1()].key == Text(1) && Both().devices[PC2()].key == Text(2)
  {
  }

  lemma AppearingBoth() returns (c: Course)
    ensures Stage(c, Both())
  {
    TextsAreKeys();
    var s := TwoDevices(Text(1), Text(2));
    var c0 := EnrollingTwo(Text(1), Text(2));
    var c1 := Appearing(c0, s, PC1());
    c := Appearing(c1, Appeared(s, PC1()), PC2());
  }

  function S(): Id {
    Name(8)
  }

  /** The session as it was requested. */
  function Request(): SessionRec {
    SessionRec(S(), User(), PC1(), PC2(), Pending, WANTED, [], 0, REQUEST_LIFETIME, 1, Text(1), Text(2))
  }

  function PendingScene(): Scene {
    Both().(calls := 7, drawn := 9, sessions := map[S() := Request()])
  }

  /** A run to a session that is pending between the two. */
  lemma PendingIsReachable() returns (c: Course)
    ensures Stage(c, PendingScene())
  {
    var c0 := AppearingBoth();
    BothAreHere();
    TextsAreKeys();
    assert WithRequest(Both(), PC1(), PC2()) == PendingScene();
    c := Requesting(c0, Both(), PC1(), PC2(), Key(1));
  }

  predicate InTime(asked: Time, later: Time) {
    0 <= asked < REQUEST_LIFETIME && asked <= later < asked + CHALLENGE_LIFETIME
  }

  function ActiveScene(asked: Time, later: Time): Scene {
    WithApproval(PendingScene(), asked, later, S(), Request())
  }

  lemma PendingIsCalm(asked: Time)
    requires 0 <= asked < REQUEST_LIFETIME
    ensures Calm(PendingScene(), asked)
  {
    BothAreHere();
  }

  lemma StillOnly(s: Scene, asked: Time, later: Time, id: Id, v: SessionRec, key: seq<nat>)
    requires Only(s, id, v, key)
    ensures Only(Before(Asked(s, asked), v.target, later), id, v, key)
  {
  }

  lemma PendingIsOnly()
    ensures Only(PendingScene(), S(), Request(), Key(2))
  {
    BothAreHere();
    TextsAreKeys();
  }

  /** A run to a session that is active: its owner asks for a challenge at any time while the request
      lasts, and approves at any time while the challenge does. */
  lemma Activating(asked: Time, later: Time) returns (c: Course)
    requires InTime(asked, later)
    ensures Stage(c, ActiveScene(asked, later))
  {
    var c0 := PendingIsReachable();
    PendingIsCalm(asked);
    PendingIsOnly();
    StillOnly(PendingScene(), asked, later, S(), Request(), Key(2));
    c := Approving(c0, PendingScene(), asked, later, S(), Request(), Key(2));
  }

  /** In some served run a session is active that was approved at any such time. */
  lemma ActiveIsReachable(asked: Time, later: Time) returns (c: Course)
    requires InTime(asked, later)
    ensures Going(c) && S() in Last(c).st.sessions && Last(c).st.sessions[S()] == Allowed(Request(), later)
  {
    c := Activating(asked, later);
  }

  /** The bound on deadlines of served runs is reached: the owner asks for the challenge, and the
      request to use it comes in, a nanosecond before the session's request is over, and its handler
      comes a nanosecond before the challenge is. */
  lemma BoundIsReached() returns (c: Course, id: Id)
    ensures Going(c) && id in Last(c).st.sessions && Last(c).st.sessions[id].state == Active
    ensures Last(c).st.sessions[id].expires ==
            Last(c).st.sessions[id].created + LONGEST + CHALLENGE_LIFETIME - 2
  {
    id := S();
    c := ActiveIsReachable(REQUEST_LIFETIME - 1, REQUEST_LIFETIME + CHALLENGE_LIFETIME - 2);
  }

  // ---------- a handover ----------

  lemma ChangedIsOnly(s: Scene, id: Id, v: SessionRec, v': SessionRec, key: seq<nat>)
    requires Only(s, id, v, key) && v' == v.(state := v'.state, granted := v'.granted, expires := v'.expires,
                                             epoch := v'.epoch)
    ensures Only(Changed(s, id, v'), id, v', key)
  {
  }

  lemma ActiveIsOnly(asked: Time, later: Time)
    requires InTime(asked, later)
    ensures Only(ActiveScene(asked, later), S(), Allowed(Request(), later), Key(2))
  {
    PendingIsOnly();
    StillOnly(PendingScene(), asked, later, S(), Request(), Key(2));
    ChangedIsOnly(Before(Asked(PendingScene(), asked), PC2(), later), S(), Request(), Allowed(Request(), later),
                  Key(2));
  }

  lemma ActiveIsCalm(asked: Time, later: Time)
    requires InTime(asked, later)
    ensures Calm(ActiveScene(asked, later), later) && ActiveScene(asked, later).calls < 14
  {
    BothAreHere();
  }

  lemma ThenInControl(w: World, s: Scene, id: Id, v: SessionRec)
    requires Shows(w, Changed(s, id, TakeOver(v))) && v.requested == WANTED && v.state == Active
    ensures id in w.st.sessions && InControl(w.st.sessions[id])
  {
    assert Mouse in WANTED;
  }

  /** A served run that ends with a handover, accepted, which puts the session in control. */
  lemma HandoverIsReachable(asked: Time, later: Time) returns (c: Course, w: World, e: Event)
    requires InTime(asked, later)
    ensures Going(c) && EndsWith(c, w, e) && HandsTo(w, e, true, S())
    ensures S() in Last(c).st.sessions && InControl(Last(c).st.sessions[S()])
  {
    var s := ActiveScene(asked, later);
    var v := Allowed(Request(), later);
    ActiveIsOnly(asked, later);
    ActiveIsCalm(asked, later);
    var c0 := Activating(asked, later);
    var c1 := Asking(c0, s, later);
    StillOnly(s, later, later, S(), v, Key(2));
    var x, e1 := HandVisit(Last(c1), Asked(s, later), S(), v, Key(2), later + CHALLENGE_LIFETIME);
    c := ServingEnds(c1, x, e1);
    w, e := x.ready, e1;
    ThenInControl(Last(c), Now(Asked(s, later)), S(), v);
  }

  // ---------- a relay credential in the past ----------

  /** Relays are answered, and what they read in the credential is over, though its deadline is not. */
  predicate IsPast(r: Response, now: Time) {
    && r.IceOut? && now < r.expires
    && exists i :: 0 <= i < |r.entries| && r.entries[i].credential.Some?
                   && r.entries[i].credential.value.seconds * SECOND <= now
  }

  lemma PastCredential(st: State, user: Id, id: Id, now: Time)
    requires id in st.sessions && st.sessions[id].operator == user && st.sessions[id].state == Active
    requires st.iceUrls == RELAYS && now == st.sessions[id].expires - 1
    requires st.sessions[id].expires % SECOND == SECOND / 2
    ensures IsPast(PlanIce(st, user, id, now).reply, now)
  {
    var entries := IceEntries(RELAYS, Credential(user, Unix(RelayDeadline(st.sessions[id], now))));
    assert RELAYS[0][..5] == "turn:";
    assert entries[0].credential.Some?;
  }

  const HALF := SECOND / 2
  const LAST_MOMENT := HALF + SESSION_LIFETIME - 1

  ghost predicate PastAt(w: World, e: Event) {
    Enabled(w, e) && e.input.IceConfiguration? && IsPast(Reply(w, e, true), e.now)
  }

  /** The session's last nanosecond, half a second into a second. */
  predicate AtItsEnd(s: Scene, id: Id, v: SessionRec) {
    && s.sessions == map[id := v] && v.operator == User() && v.state == Active
    && s.at == v.expires - 1 && v.expires % SECOND == HALF
  }

  lemma PastEvent(w: World, s: Scene, id: Id, v: SessionRec) returns (e: Event)
    requires Shows(w, s) && AtItsEnd(s, id, v)
    ensures e.input == IceConfiguration(User(), id) && PastAt(w, e)
  {
    e := GateEnabled(w, s, IceConfiguration(User(), id));
    PastCredential(w.st, User(), id, e.now);
  }

  lemma PastVisit(w: World, s: Scene, id: Id, v: SessionRec) returns (x: Visit, e: Event)
    requires Shows(w, s) && AtItsEnd(s, id, v) && s.calls < 15
    ensures Comes(w, x, e.input) && PastAt(x.ready, e)
  {
    x := Coming(w, s, IceConfiguration(User(), id), s.at, s.at, "", s.at);
    e := PastEvent(x.ready, Now(s), id, v);
  }

  function LastScene(s: Scene): Scene {
    s.(at := LAST_MOMENT, calls := s.calls + 1, drawn := s.drawn + 2)
  }

  lemma ActiveIsOne(asked: Time, later: Time)
    ensures ActiveScene(asked, later).sessions == map[S() := Allowed(Request(), later)]
    ensures ActiveScene(asked, later).calls == 9 && ActiveScene(asked, later).at == later
  {
  }

  lemma WholeHours()
    ensures LAST_MOMENT + 1 == HALF + SESSION_LIFETIME && (HALF + SESSION_LIFETIME) % SECOND == HALF
  {
  }

  lemma LastMoment(s: Scene, id: Id, v: SessionRec)
    requires s.sessions == map[id := Allowed(v, HALF)] && v.operator == User()
    ensures AtItsEnd(LastScene(s), id, Allowed(v, HALF)) && NoneOverdue(s.sessions, LAST_MOMENT)
  {
    WholeHours();
  }

  lemma LoggedIn() returns (c: Course)
    ensures Stage(c, LastScene(ActiveScene(0, HALF)))
  {
    var s := ActiveScene(0, HALF);
    var c0 := Activating(0, HALF);
    ActiveIsOne(0, HALF);
    LastMoment(s, S(), Request());
    c := LoggingIn(c0, s, LAST_MOMENT);
  }

  /** A served run that ends with a relay credential whose whole seconds have already passed. */
  lemma PastCredentialIsReachable() returns (c: Course, w: World, e: Event)
    ensures Going(c) && EndsWith(c, w, e) && PastAt(w, e)
  {
    var s := ActiveScene(0, HALF);
    var c0 := LoggedIn();
    ActiveIsOne(0, HALF);
    LastMoment(s, S(), Request());
    var v, e1 := PastVisit(Last(c0), LastScene(s), S(), Allowed(Request(), HALF));
    c := ServingEnds(c0, v, e1);
    w, e := v.ready, e1;
  }

  // ---------- a crash ----------

  ghost predicate CrashesAt(w: World, e: Event) {
    Enabled(w, e) && e.input == Logout(User()) && Reply(w, e, true) == Crashed
  }

  const NO_DEVICE := "x"

  lemma CrashVisit(w: World, s: Scene) returns (v: Visit, e: Event)
    requires Shows(w, s) && Calm(s, s.at) && NO_DEVICE in s.peers && NO_DEVICE !in s.devices
    ensures Comes(w, v, e.input) && CrashesAt(v.ready, e) && v.ready.st.history == w.st.history
  {
    v := Coming(w, s, Logout(User()), s.at, 0, "", s.at);
    e := GateEnabled(v.ready, Now(s), Logout(User()));
    LogoutCrashes(v.ready.st, User(), e.now, e.order);
  }

  lemma NoLogoutAfter(h: seq<Audit>, h': seq<Audit>)
    requires NoLogout(h) && OnlyClosings(h, h')
    ensures NoLogout(h')
  {
  }

  lemma Intruding() returns (c: Course)
    ensures Stage(c, NOBODY.(peers := {NO_DEVICE})) && NoLogout(Last(c).st.history)
  {
    var c0 := Joining();
    var e, w := Connecting(Last(c0), NOBODY, NO_DEVICE);
    c := Adding(c0, e, w);
  }

  lemma CrashLogsNothing(c: Course, w: World, e: Event)
    requires Going(c) && EndsWith(c, w, e) && Defined(w.st, e.input) && Reply(w, e, true) == Crashed
    requires NoLogout(w.st.history)
    ensures NoLogout(Last(c).st.history)
  {
    CrashLosesOnlyItsEvent(c.ws, c.es, true, |c.es| - 1);
    NoLogoutAfter(w.st.history, Last(c).st.history);
  }

  lemma Crashing() returns (c: Course, w: World, e: Event)
    ensures Going(c) && EndsWith(c, w, e) && CrashesAt(w, e) && NoLogout(w.st.history)
  {
    var c0 := Intruding();
    var v, e1 := CrashVisit(Last(c0), NOBODY.(peers := {NO_DEVICE}));
    c := ServingEnds(c0, v, e1);
    w, e := v.ready, e1;
  }

  /** The account logs out while a peer is connected that is no device: the section does not get to
      its end, and the logout is not recorded. */
  lemma CrashIsReachable() returns (c: Course, w: World, e: Event)
    ensures Going(c) && EndsWith(c, w, e) && CrashesAt(w, e) && NoLogout(Last(c).st.history)
  {
    c, w, e := Crashing();
    CrashLogsNothing(c, w, e);
  }

  // ---------- a revoked key, spelled otherwise ----------

  predicate SameKey(a: DeviceRec, b: DeviceRec) {
    KeyOf(a.key).Some? && KeyOf(a.key) == KeyOf(b.key) && a.owner == b.owner
  }

  function Broken(text: string): string {
    text + "\n"
  }

  lemma BrokenIsKey(text: string)
    ensures KeyOf(Broken(text)) == KeyOf(text) && Broken(text) != text
  {
    BreakKeepsKey(text, '\n', "");
    assert text + ['\n'] + "" == Broken(text) && text + "" == text;
  }

  function Returned(text: string, text': string): Scene {
    Scene(0, 6, 7, map[PC1() := Pc(PC1(), text).(revoked := true), PC2() := Pc(PC2(), text')], map[], {})
  }

  lemma RevokedIsInactive(text: string)
    ensures ActiveDevices(WithRevoked(OneDevice(text), PC1()).devices, User()) == {}
  {
  }

  lemma Revoking(text: string) returns (c: Course)
    requires KeyOf(text).Some?
    ensures Stage(c, WithRevoked(OneDevice(text), PC1()))
  {
    var c0 := EnrollingOne(text);
    var v, e := RevokeVisit(Last(c0), OneDevice(text), PC1());
    c := Proceeding(c0, v, e, WithRevoked(OneDevice(text), PC1()));
  }

  lemma ReturnedScene(text: string, text': string)
    ensures WithDevice(WithRevoked(OneDevice(text), PC1()), text') == Returned(text, text')
  {
  }

  lemma Returning(text: string, text': string) returns (c: Course)
    requires KeyOf(text).Some? && KeyOf(text').Some? && text != text'
    ensures Stage(c, Returned(text, text'))
  {
    var s := WithRevoked(OneDevice(text), PC1());
    var c0 := Revoking(text);
    RevokedIsInactive(text);
    ReturnedScene(text, text');
    c := Enrolling(c0, s, text');
  }

  /** The account revokes a device, and enrols another with the same key: all that differs is a line
      break at the end of its text. */
  lemma RevokedKeyReturns() returns (c: Course, a: Id, b: Id)
    ensures Going(c) && a in Last(c).st.devices && b in Last(c).st.devices
    ensures Last(c).st.devices[a].revoked && !Last(c).st.devices[b].revoked
    ensures SameKey(Last(c).st.devices[a], Last(c).st.devices[b])
  {
    TextsAreKeys();
    BrokenIsKey(Text(1));
    c := Returning(Text(1), Broken(Text(1)));
    a, b := PC1(), PC2();
  }
}
