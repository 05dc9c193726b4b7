/** How long sessions and relay credentials last. */
module Lifetime {
  import opened Types
  import opened Token
  import opened Model
  import opened Runs
  import opened Frames
  import opened Plans
  import opened Invariants
  import opened Worlds

  const LONGEST := REQUEST_LIFETIME + SESSION_LIFETIME

  // ---------- one section ----------

  /** An open session keeps its deadline, or is approved and gets a new one. */
  predicate Continues(v: SessionRec, v': SessionRec, e: Event, id: Id) {
    && Open(v) && v'.created == v.created
    && ((v'.expires == v.expires && v'.state == v.state) || ApprovedBy(v, v', e, id))
  }

  predicate ApprovedBy(v: SessionRec, v': SessionRec, e: Event, id: Id) {
    && e.input.Decide? && e.input.id == id && e.input.approve
    && v.state == Pending && v'.state == Active && v'.expires == e.now + SESSION_LIFETIME
  }

  predicate Requested(v': SessionRec, e: Event) {
    v'.state == Pending && v'.created == e.now && v'.expires == e.now + REQUEST_LIFETIME
  }

  ghost predicate Deadlines(sessions: map<Id, SessionRec>, e: Event, sessions': map<Id, SessionRec>) {
    forall id :: id in sessions' && Open(sessions'[id]) ==>
      && (e.input.Arrive? ==> e.now < sessions'[id].expires)
      && if id in sessions then Continues(sessions[id], sessions'[id], e, id) else Requested(sessions'[id], e)
  }

  lemma ApprovingIsDeciding(st: State, e: Event, purge: bool)
    requires Defined(st, e.input) && Plan(st, e, purge).effect.Approve?
    ensures e.input.Decide? && e.input.id == Plan(st, e, purge).effect.id && e.input.approve
  {
    PlanFramed(st, e, purge);
  }

  lemma ContinuesOne(st: State, o: Outcome, e: Event, id: Id)
    requires Sound(st, o, ContextOf(e)) && id in st.sessions
    requires forall y :: y in Draws(e.input) ==> y !in st.sessions
    requires o.effect.Approve? ==> e.input.Decide? && e.input.id == o.effect.id && e.input.approve
    ensures id in After(o) && (Open(After(o)[id]) ==> Continues(st.sessions[id], After(o)[id], e, id))
  {
    MoveOf(st, o, ContextOf(e), id);
  }

  lemma ArriveEndsOverdue(st: State, host: string, authPath: bool, now: Time, order: seq<Id>, purge: bool, id: Id)
    requires id in After(PlanArrive(st, host, authPath, now, order, purge))
    requires Open(After(PlanArrive(st, host, authPath, now, order, purge))[id])
    ensures now < After(PlanArrive(st, host, authPath, now, order, purge))[id].expires
  {
  }

  lemma StepDeadlines(w: World, e: Event, purge: bool)
    requires Named(w) && Enabled(w, e) && Defined(w.st, e.input)
    ensures Deadlines(w.st.sessions, e, After(Plan(w.st, e, purge)))
  {
    var o, x := Plan(w.st, e, purge), ContextOf(e);
    DrawsAreNew(w, e);
    PlanIsSound(w.st, e, purge);
    if o.effect.Approve? {
      ApprovingIsDeciding(w.st, e, purge);
    }
    forall id | id in After(o) && Open(After(o)[id])
      ensures e.input.Arrive? ==> e.now < After(o)[id].expires
      ensures if id in w.st.sessions then Continues(w.st.sessions[id], After(o)[id], e, id)
              else Requested(After(o)[id], e)
    {
      if e.input.Arrive? {
        ArriveEndsOverdue(w.st, e.input.host, e.input.authPath, e.now, e.order, purge, id);
      }
      if id in w.st.sessions {
        ContinuesOne(w.st, o, e, id);
      } else {
        NewSession(w.st, o, x, id);
      }
    }
  }

  // ---------- over a run ----------

  ghost predicate Timed(ws: seq<World>, es: seq<Event>) {
    && |ws| == |es| + 1 && ws[0].st.sessions == map[]
    && forall n :: 0 <= n < |es| ==>
         && ws[n].clock <= es[n].now == ws[n + 1].clock
         && Deadlines(ws[n].st.sessions, es[n], ws[n + 1].st.sessions)
  }

  lemma RunTimed(ws: seq<World>, es: seq<Event>, purge: bool)
    requires IsRun(ws, es, purge)
    ensures Timed(ws, es)
  {
    forall n | 0 <= n < |es| ensures Deadlines(ws[n].st.sessions, es[n], ws[n + 1].st.sessions) {
      RunNamed(ws, es, purge, n);
      StepDeadlines(ws[n], es[n], purge);
    }
  }

  /** The event comes no more than `lag` after an earlier prologue. */
  ghost predicate Within(es: seq<Event>, n: nat, lag: Time) {
    exists k :: 0 <= k < n < |es| && es[k].input.Arrive? && es[n].now <= es[k].now + lag
  }

  lemma {:induction false} ClockOrder(ws: seq<World>, es: seq<Event>, i: nat, j: nat)
    requires Timed(ws, es) && i <= j <= |es|
    ensures ws[i].clock <= ws[j].clock
    decreases j
  {
    if i < j {
      ClockOrder(ws, es, i, j - 1);
    }
  }

  predicate AllInTime(sessions: map<Id, SessionRec>, now: Time) {
    forall id :: id in sessions && Open(sessions[id]) ==> now < sessions[id].expires
  }

  /** After a prologue no session is open whose deadline it found passed, then or later. */
  lemma {:induction false} InTimeAfterArrive(ws: seq<World>, es: seq<Event>, k: nat, n: nat)
    requires Timed(ws, es) && k < n <= |es| && es[k].input.Arrive?
    ensures AllInTime(ws[n].st.sessions, es[k].now)
    decreases n
  {
    assert Deadlines(ws[n - 1].st.sessions, es[n - 1], ws[n].st.sessions);
    if k + 1 < n {
      ClockOrder(ws, es, k + 1, n - 1);
      InTimeAfterArrive(ws, es, k, n - 1);
    }
  }

  lemma WithinIsInTime(ws: seq<World>, es: seq<Event>, n: nat, id: Id, lag: Time)
    requires Timed(ws, es) && n < |es| && Within(es, n, lag) && id in ws[n].st.sessions && Open(ws[n].st.sessions[id])
    ensures es[n].now < ws[n].st.sessions[id].expires + lag
  {
    var k :| 0 <= k < n && es[k].input.Arrive? && es[n].now <= es[k].now + lag;
    InTimeAfterArrive(ws, es, k, n);
  }

  lemma {:induction false} PendingDeadline(ws: seq<World>, es: seq<Event>, n: nat, id: Id)
    requires Timed(ws, es) && n <= |es| && id in ws[n].st.sessions && ws[n].st.sessions[id].state == Pending
    ensures ws[n].st.sessions[id].expires == ws[n].st.sessions[id].created + REQUEST_LIFETIME
  {
    if n > 0 {
      assert Deadlines(ws[n - 1].st.sessions, es[n - 1], ws[n].st.sessions);
      if id in ws[n - 1].st.sessions {
        PendingDeadline(ws, es, n - 1, id);
      }
    }
  }

  /** The k-th event approved the pending session, and set the deadline that v has. */
  ghost predicate ApprovedAt(ws: seq<World>, es: seq<Event>, k: nat, id: Id, v: SessionRec)
    requires k < |es| < |ws|
  {
    && es[k].input.Decide? && es[k].input.id == id && es[k].input.approve
    && id in ws[k].st.sessions && ws[k].st.sessions[id].state == Pending
    && id in ws[k + 1].st.sessions && ws[k + 1].st.sessions[id].state == Active
    && v.expires == es[k].now + SESSION_LIFETIME == ws[k + 1].st.sessions[id].expires
    && ws[k].st.sessions[id].created == v.created
  }

  lemma {:induction false} ApprovalOf(ws: seq<World>, es: seq<Event>, n: nat, id: Id) returns (k: nat)
    requires Timed(ws, es) && n <= |es| && id in ws[n].st.sessions && ws[n].st.sessions[id].state == Active
    ensures k < n && ApprovedAt(ws, es, k, id, ws[n].st.sessions[id])
  {
    assert n > 0;
    assert Deadlines(ws[n - 1].st.sessions, es[n - 1], ws[n].st.sessions);
    if ws[n - 1].st.sessions[id].state == Pending {
      k := n - 1;
    } else {
      k := ApprovalOf(ws, es, n - 1, id);
    }
  }

  /** In any run an active session's deadline is within two minutes and eight hours of its creation
      exactly if it was approved within the two minutes a request lasts: decideSession does not look
      at the deadline of what it approves. */
  lemma DeadlineIffTimelyApproval(ws: seq<World>, es: seq<Event>, purge: bool, n: nat, id: Id) returns (k: nat)
    requires IsRun(ws, es, purge) && n <= |es| && id in ws[n].st.sessions && ws[n].st.sessions[id].state == Active
    ensures k < n && ApprovedAt(ws, es, k, id, ws[n].st.sessions[id])
    ensures ws[n].st.sessions[id].expires <= ws[n].st.sessions[id].created + LONGEST <==>
            es[k].now <= ws[n].st.sessions[id].created + REQUEST_LIFETIME
  {
    RunTimed(ws, es, purge);
    k := ApprovalOf(ws, es, n, id);
  }

  /** In any run in which approvals come no more than `lag` after some prologue, an active session's
      deadline is less than that, two minutes and eight hours after its creation. */
  lemma DeadlineBound(ws: seq<World>, es: seq<Event>, purge: bool, n: nat, id: Id, lag: Time)
    requires IsRun(ws, es, purge) && n <= |es| && id in ws[n].st.sessions && ws[n].st.sessions[id].state == Active
    requires forall k :: 0 <= k < n && ApprovedAt(ws, es, k, id, ws[n].st.sessions[id]) ==> Within(es, k, lag)
    ensures ws[n].st.sessions[id].expires < ws[n].st.sessions[id].created + LONGEST + lag
  {
    RunTimed(ws, es, purge);
    var k := ApprovalOf(ws, es, n, id);
    WithinIsInTime(ws, es, k, id, lag);
    PendingDeadline(ws, es, k, id);
  }

  /** In any run no section that comes at most `lag` after some prologue finds a session open `lag` or
      more after its deadline: none at or after it when they share a reading of the clock. */
  lemma OpenBeforeDeadline(ws: seq<World>, es: seq<Event>, purge: bool, n: nat, id: Id, lag: Time)
    requires IsRun(ws, es, purge) && n < |es| && Within(es, n, lag)
    requires id in ws[n].st.sessions && Open(ws[n].st.sessions[id])
    ensures es[n].now < ws[n].st.sessions[id].expires + lag
  {
    RunTimed(ws, es, purge);
    WithinIsInTime(ws, es, n, id, lag);
  }

  // ---------- relay credentials ----------

  /** A relay credential ends after now, within ten minutes, and no later than its session; the
      relays among the configured addresses carry it, and only they. */
  lemma RelayWithinSession(st: State, user: Id, id: Id, now: Time)
    ensures var r := PlanIce(st, user, id, now).reply;
            r.IceOut? ==>
              && id in st.sessions && st.sessions[id].state == Active && Visible(st.devices, st.sessions[id], user)
              && now < r.expires <= now + RELAY_LIFETIME && r.expires <= st.sessions[id].expires
              && (r.expires == now + RELAY_LIFETIME || r.expires == st.sessions[id].expires)
              && |r.entries| == |st.iceUrls|
              && forall i :: 0 <= i < |r.entries| ==>
                   && r.entries[i].url == st.iceUrls[i]
                   && (r.entries[i].credential.Some? <==> IsRelay(st.iceUrls[i]))
                   && (r.entries[i].credential.Some? ==>
                       r.entries[i].credential.value == Credential(user, Unix(r.expires)))
  {
  }

  /** The user name carries whole seconds, so what the relay reads lies after now exactly if the
      session lasts into the next whole second. */
  lemma RelaySecondsAfterNow(v: SessionRec, now: Time)
    requires now < v.expires
    ensures Unix(RelayDeadline(v, now)) * SECOND > now <==> (Unix(now) + 1) * SECOND <= v.expires
    ensures Unix(RelayDeadline(v, now)) * SECOND <= now + RELAY_LIFETIME
  {
  }
}
