/** The one lookup that can fail: `invalidate` reads the owner of every connected peer's device, and
    `signalling` connects a peer under any name. */
module Crashes {
  import opened Types
  import opened Model
  import opened Runs
  import opened Frames
  import opened Plans
  import opened History
  import opened Worlds
  import opened Access

  /** Sections that go through `invalidate`: a logout, and a used refresh token presented again. */
  predicate Invalidating(st: State, e: Event) {
    e.input.Logout? || Reuses(st, e)
  }

  /** The section gets to its end: it dereferences no entry that is not there. */
  ghost predicate Completes(w: World, e: Event, purge: bool) {
    Defined(w.st, e.input) && Reply(w, e, purge) != Crashed
  }

  // ---------- section by section ----------

  lemma RotateCrashes(st: State, token: string, raw: string, now: Time, order: seq<Id>)
    requires OwnersExist(st)
    ensures var d := Digest(token);
            PlanRotate(st, token, raw, now, order).reply == Crashed <==>
            d in st.refresh && now < st.refresh[d].expires && st.refresh[d].used && !PeersKnown(st)
  {
  }

  lemma LogoutCrashes(st: State, user: Id, now: Time, order: seq<Id>)
    requires user in st.accounts
    ensures PlanLogout(st, user, now, order).reply == Crashed <==> !PeersKnown(st)
  {
  }

  lemma PlanCrashes(st: State, e: Event, purge: bool)
    requires Defined(st, e.input)
    ensures Plan(st, e, purge).reply == Crashed <==> Invalidating(st, e) && !PeersKnown(st)
  {
    PlanFramed(st, e, purge);
    match e.input
    case Rotate(token, raw) => RotateCrashes(st, token, raw, e.now, e.order);
    case Logout(user) => LogoutCrashes(st, user, e.now, e.order);
    case _ =>
  }

  // ---------- over a run ----------

  /** After any run, any request that may come next completes, unless it goes through `invalidate`
      while some connected peer is not a registered device; then it does not. */
  lemma CompletesIffPeersKnown(ws: seq<World>, es: seq<Event>, purge: bool, e: Event)
    requires IsRun(ws, es, purge) && Enabled(ws[|es|], e)
    ensures Completes(ws[|es|], e, purge) <==> (Invalidating(ws[|es|].st, e) ==> PeersKnown(ws[|es|].st))
  {
    RunSound(ws, es, purge, |es|);
    LookupsSucceed(ws[|es|], e);
    PlanCrashes(ws[|es|].st, e, purge);
  }

  lemma CrashPlan(st: State, e: Event, purge: bool)
    requires Defined(st, e.input) && Invalidating(st, e) && !PeersKnown(st)
    ensures var o := Plan(st, e, purge);
            && o.tail == [] && o.effect.EndWhere? && o.effect.final == Closed
            && exists user :: Invalidates(st, e, user) && o.effect.which == VisibleTo(user)
  {
    if e.input.Logout? {
      assert Invalidates(st, e, e.input.user);
    } else {
      assert Invalidates(st, e, st.refresh[Digest(e.input.token)].user);
    }
  }

  /** No session that the user operates, or to a device the user owns, is open. */
  predicate AllClosed(st: State, user: Id) {
    forall id :: id in st.sessions && Visible(st.devices, st.sessions[id], user) ==> !Open(st.sessions[id])
  }

  /** Nothing was recorded since but sessions closing. */
  predicate OnlyClosings(h: seq<Audit>, h': seq<Audit>) {
    h <= h' && forall i :: |h| <= i < |h'| ==> h'[i].action == SessionEvent(Ended(Closed))
  }

  /** What is lost when it does not is the event of its own: the user's sessions have ended and been
      recorded, and (by AccessIsExact and FamilyDiesByReuse) the user's tokens are out of date. */
  lemma CrashLosesOnlyItsEvent(ws: seq<World>, es: seq<Event>, purge: bool, n: nat)
    requires IsRun(ws, es, purge) && n < |es| && Reply(ws[n], es[n], purge) == Crashed
    ensures exists user :: Invalidates(ws[n].st, es[n], user) && AllClosed(ws[n + 1].st, user)
    ensures OnlyClosings(ws[n].st.history, ws[n + 1].st.history)
  {
    PlanCrashes(ws[n].st, es[n], purge);
    CrashPlan(ws[n].st, es[n], purge);
    RunNamed(ws, es, purge, n);
    var user :| Invalidates(ws[n].st, es[n], user) && Plan(ws[n].st, es[n], purge).effect.which == VisibleTo(user);
    CrashStep(ws[n], es[n], purge, user);
  }

  lemma CrashStep(w: World, e: Event, purge: bool, user: Id)
    requires Named(w) && Enabled(w, e) && Defined(w.st, e.input)
    requires ClosesOnly(Plan(w.st, e, purge), user)
    ensures AllClosed(Step(w, e, purge).st, user) && OnlyClosings(w.st.history, Step(w, e, purge).st.history)
  {
    DrawsAreNew(w, e);
    PlanIsSound(w.st, e, purge);
    EndingCloses(w.st, Plan(w.st, e, purge), ContextOf(e), user);
  }

  predicate ClosesOnly(o: Outcome, user: Id) {
    o.tail == [] && o.effect.EndWhere? && o.effect.final == Closed && o.effect.which == VisibleTo(user)
  }

  lemma EndingCloses(st: State, o: Outcome, x: Context, user: Id)
    requires Sound(st, o, x) && ClosesOnly(o, user)
    ensures AllClosed(Commit(o, x.now), user) && OnlyClosings(st.history, Commit(o, x.now).history)
  {
    var events := NewEvents(o, x.now);
    EndEventsEnd(o.base.devices, o.base.sessions, o.effect.which, Closed, o.effect.actor, o.effect.order, x.now);
    var h' := Commit(o, x.now).history;
    assert h' == st.history + events;
    assert forall i :: |st.history| <= i < |h'| ==> h'[i] == events[i - |st.history|];
  }

  lemma {:induction false} EndEventsEnd(devices: map<Id, DeviceRec>, sessions: map<Id, SessionRec>, which: Which,
                                        final: SessionState, actor: Id, order: seq<Id>, now: Time)
    ensures forall i :: 0 <= i < |EndEvents(devices, sessions, which, final, actor, order, now)| ==>
              EndEvents(devices, sessions, which, final, actor, order, now)[i].action == SessionEvent(Ended(final))
  {
    if order != [] {
      EndEventsEnd(devices, sessions, which, final, actor, order[..|order| - 1], now);
    }
  }
}
