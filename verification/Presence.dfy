/** What makes a device live: the source never writes the time it was last seen. */
module Presence {
  import opened Types
  import opened Model
  import opened Runs
  import opened Frames
  import opened Plans
  import opened Invariants
  import opened Worlds

  /** A device's last-seen time is that of its last Touch, or a new device's zero time. */
  predicate SeenMove(devices: map<Id, DeviceRec>, devices': map<Id, DeviceRec>, e: Event) {
    && (forall id :: id in devices ==> id in devices')
    && forall id :: id in devices' ==>
         devices'[id].lastSeen ==
         if id !in devices then ZERO_TIME else if e.input == Touch(id) then e.now else devices[id].lastSeen
  }

  // ---------- section by section ----------

  predicate KeepsSeen(st: State, base: State) {
    && (forall id :: id in st.devices ==> id in base.devices)
    && forall id :: id in base.devices ==>
         base.devices[id].lastSeen == if id in st.devices then st.devices[id].lastSeen else ZERO_TIME
  }

  lemma EnrolKeepsSeen(st: State, user: Id, name: string, key: string, os: string, kind: string, id: Id, now: Time)
    requires id !in st.devices
    ensures KeepsSeen(st, Enrol(st, user, name, key, os, kind, id, now).base)
  {
    forall holder | HoldsKey(st.devices, holder, key)
      ensures KeepsSeen(st, Confirm(st, user, holder, name, os, kind, now).base)
    {
      ConfirmKeepsSeen(st, user, holder, name, os, kind, now);
    }
  }

  lemma ConfirmKeepsSeen(st: State, user: Id, holder: Id, name: string, os: string, kind: string, now: Time)
    requires holder in st.devices
    ensures KeepsSeen(st, Confirm(st, user, holder, name, os, kind, now).base)
  {
  }

  lemma RegisterDeviceKeepsSeen(st: State, user: Id, p: Proof, name: string, key: string, os: string,
                                kind: string, id: Id, now: Time)
    requires id !in st.devices
    ensures KeepsSeen(st, PlanRegisterDevice(st, user, p, name, key, os, kind, id, now).base)
  {
    EnrolKeepsSeen(Spend(st, p.nonce), user, name, key, os, DefaultKind(kind), id, now);
  }

  lemma RevokeDeviceKeepsSeen(st: State, user: Id, id: Id, now: Time, order: seq<Id>)
    ensures KeepsSeen(st, PlanRevokeDevice(st, user, id, now, order).base)
  {
  }

  lemma TouchSeen(st: State, e: Event, id: Id)
    requires e.input == Touch(id)
    ensures SeenMove(st.devices, PlanTouch(st, id, e.now).base.devices, e)
  {
  }

  lemma KeepingIsSeeing(st: State, base: State, e: Event)
    requires KeepsSeen(st, base) && !e.input.Touch?
    ensures SeenMove(st.devices, base.devices, e)
  {
  }

  lemma OthersSeen(st: State, e: Event, purge: bool)
    requires Defined(st, e.input) && !e.input.RegisterDevice? && !e.input.RevokeDevice? && !e.input.Touch?
    ensures KeepsSeen(st, Plan(st, e, purge).base)
  {
    PlanFramed(st, e, purge);
  }

  lemma PlanSeen(st: State, e: Event, purge: bool)
    requires Defined(st, e.input)
    requires e.input.RegisterDevice? ==> e.input.newId !in st.devices
    ensures SeenMove(st.devices, Plan(st, e, purge).base.devices, e)
  {
    match e.input
    case RegisterDevice(user, p, name, key, os, kind, id) =>
      RegisterDeviceKeepsSeen(st, user, p, name, key, os, kind, id, e.now);
      KeepingIsSeeing(st, Plan(st, e, purge).base, e);
    case RevokeDevice(user, id) =>
      RevokeDeviceKeepsSeen(st, user, id, e.now, e.order);
      KeepingIsSeeing(st, Plan(st, e, purge).base, e);
    case Touch(id) => TouchSeen(st, e, id);
    case _ =>
      OthersSeen(st, e, purge);
      KeepingIsSeeing(st, Plan(st, e, purge).base, e);
  }

  // ---------- over a run ----------

  ghost predicate Seen(ws: seq<World>, es: seq<Event>) {
    && |ws| == |es| + 1 && ws[0].st.devices == map[]
    && forall n :: 0 <= n < |es| ==>
         && SeenMove(ws[n].st.devices, ws[n + 1].st.devices, es[n])
         && 0 <= ws[n].clock <= es[n].now == ws[n + 1].clock
  }

  lemma StepSeen(w: World, e: Event, purge: bool)
    requires Named(w) && Enabled(w, e) && Defined(w.st, e.input)
    ensures SeenMove(w.st.devices, Step(w, e, purge).st.devices, e)
  {
    DrawsAreNew(w, e);
    assert e.input.RegisterDevice? ==> e.input.newId in Draws(e.input);
    PlanSeen(w.st, e, purge);
  }

  lemma RunSeen(ws: seq<World>, es: seq<Event>, purge: bool)
    requires IsRun(ws, es, purge)
    ensures Seen(ws, es)
  {
    forall n | 0 <= n < |es|
      ensures SeenMove(ws[n].st.devices, ws[n + 1].st.devices, es[n]) && 0 <= ws[n].clock
    {
      RunNamed(ws, es, purge, n);
      ClockIsPositive(ws, es, purge, n);
      StepSeen(ws[n], es[n], purge);
    }
  }

  /** The k-th event touches the device, registered by then. */
  ghost predicate TouchedAt(ws: seq<World>, es: seq<Event>, k: nat, id: Id)
    requires k < |es| < |ws|
  {
    es[k].input == Touch(id) && id in ws[k].st.devices
  }

  /** The last-seen time is that of a Touch, and no Touch is later. */
  lemma {:induction false} SeenIsLastTouch(ws: seq<World>, es: seq<Event>, n: nat, id: Id)
    requires Seen(ws, es) && n <= |es| && id in ws[n].st.devices
    ensures var seen := ws[n].st.devices[id].lastSeen;
            && (seen == ZERO_TIME || exists k :: 0 <= k < n && TouchedAt(ws, es, k, id) && es[k].now == seen)
            && (forall k :: 0 <= k < n && TouchedAt(ws, es, k, id) ==> es[k].now <= seen)
            && seen <= ws[n].clock
  {
    if n > 0 {
      assert SeenMove(ws[n - 1].st.devices, ws[n].st.devices, es[n - 1]);
      if id in ws[n - 1].st.devices {
        SeenIsLastTouch(ws, es, n - 1, id);
      } else {
        NoTouchBefore(ws, es, n - 1, id);
      }
    }
  }

  lemma {:induction false} NoTouchBefore(ws: seq<World>, es: seq<Event>, n: nat, id: Id)
    requires Seen(ws, es) && n <= |es| && id !in ws[n].st.devices
    ensures forall k :: 0 <= k < n ==> !TouchedAt(ws, es, k, id)
  {
    if n > 0 {
      assert SeenMove(ws[n - 1].st.devices, ws[n].st.devices, es[n - 1]);
      NoTouchBefore(ws, es, n - 1, id);
    }
  }

  ghost predicate TouchedSince(ws: seq<World>, es: seq<Event>, n: nat, id: Id, now: Time)
    requires n <= |es| < |ws|
  {
    exists k :: 0 <= k < n && TouchedAt(ws, es, k, id) && now - es[k].now < 45 * SECOND
  }

  /** In any run a device is live exactly if it is registered, not revoked, connected, and was touched
      less than 45 seconds before. */
  lemma LiveIffTouched(ws: seq<World>, es: seq<Event>, purge: bool, n: nat, id: Id, now: Time)
    requires IsRun(ws, es, purge) && n <= |es| && now >= 0
    ensures Live(ws[n].st, id, now) <==>
            && id in ws[n].st.devices && !ws[n].st.devices[id].revoked && id in ws[n].st.peers
            && TouchedSince(ws, es, n, id, now)
  {
    RunSeen(ws, es, purge);
    if id in ws[n].st.devices {
      SeenIsLastTouch(ws, es, n, id);
    }
  }

  // ---------- sessions need it ----------

  lemma CreatingNeedsLive(st: State, e: Event, purge: bool)
    requires Defined(st, e.input) && Plan(st, e, purge).effect.Create?
    ensures e.input.RequestSession? && Live(st, e.input.source, e.now)
  {
    PlanFramed(st, e, purge);
  }

  lemma NewSessionNeedsLive(w: World, e: Event, purge: bool, id: Id)
    requires Named(w) && Enabled(w, e) && Defined(w.st, e.input)
    requires id !in w.st.sessions && id in After(Plan(w.st, e, purge))
    ensures e.input.RequestSession? && Live(w.st, e.input.source, e.now)
  {
    DrawsAreNew(w, e);
    PlanIsSound(w.st, e, purge);
    NewSession(w.st, Plan(w.st, e, purge), ContextOf(e), id);
    CreatingNeedsLive(w.st, e, purge);
  }

  /** Without the heartbeat that the source does not have, no run ever has a session. */
  lemma {:induction false} NoTouchNoSession(ws: seq<World>, es: seq<Event>, purge: bool, n: nat)
    requires IsRun(ws, es, purge) && n <= |es|
    requires forall k :: 0 <= k < n ==> !es[k].input.Touch?
    ensures ws[n].st.sessions == map[]
  {
    if n > 0 {
      NoTouchNoSession(ws, es, purge, n - 1);
      if id :| id in ws[n].st.sessions {
        SessionNeedsTouch(ws, es, purge, n - 1, id);
      }
    }
  }

  lemma SessionNeedsTouch(ws: seq<World>, es: seq<Event>, purge: bool, n: nat, id: Id)
    requires IsRun(ws, es, purge) && n < |es| && id !in ws[n].st.sessions && id in ws[n + 1].st.sessions
    ensures exists k :: 0 <= k < n && es[k].input.Touch?
  {
    RunNamed(ws, es, purge, n);
    ClockIsPositive(ws, es, purge, n);
    NewSessionNeedsLive(ws[n], es[n], purge, id);
    LiveIffTouched(ws, es, purge, n, es[n].input.source, es[n].now);
    var k :| 0 <= k < n && TouchedAt(ws, es, k, es[n].input.source);
    assert es[k].input.Touch?;
  }
}
