/** Runs in which every handler belongs to a request: its own prologue let the request through, its
    access token was checked, and what it presents the client had before that. */
module Served {
  import opened Types
  import opened Model
  import opened Runs
  import opened Plans
  import opened Worlds
  import opened Flow
  import opened Authority
  import opened Lifetime

  /** Sections that are the body of a request. */
  predicate Handles(i: Input) {
    !i.Arrive? && !i.VerifyAccess? && !i.Connect? && !i.Disconnect? && !i.Touch? && !i.Analyze?
  }

  /** Requests under /v1/auth/. */
  predicate IsAuth(i: Input) {
    i.Register? || i.Login? || i.Rotate? || i.Logout?
  }

  /** The names that the server draws and the request sends back. */
  function Carries(i: Input): seq<string> {
    match i
    case Rotate(token, _) => [token]
    case RegisterDevice(_, p, _, _, _, _, _) => [p.nonce]
    case RevokeDevice(_, id) => [id]
    case RequestSession(_, p, source, target, _, _) => [p.nonce, source, target]
    case Decide(_, p, id, _, _) => [p.nonce, id]
    case ChangePermissions(_, p, id, _) => [p.nonce, id]
    case HandControl(_, p, id) => [p.nonce, id]
    case StopSession(_, id) => [id]
    case IceConfiguration(_, id) => [id]
    case _ => []
  }

  /** Where the sections before a handler are: its prologue, and the check of its access token. */
  datatype Way = Way(prologue: nat, check: nat)

  ghost predicate Leads(ws: seq<World>, es: seq<Event>, purge: bool, n: nat, way: Way)
    requires n < |es| < |ws|
  {
    var p, c, i := way.prologue, way.check, es[n].input;
    && p < c <= n
    && es[p].input.Arrive? && es[p].input.authPath == IsAuth(i)
    && Defined(ws[p].st, es[p].input) && Reply(ws[p], es[p], purge) == Admitted
    && (ActsFor(i).Some? ==>
          && c < n && es[c].input.VerifyAccess? && Defined(ws[c].st, es[c].input)
          && Reply(ws[c], es[c], purge) == Subject(ActsFor(i).value))
    && (forall x :: x in Carries(i) && x in ws[n].issued ==> x in ws[p].issued)
  }

  /** No two handlers share a prologue or a check. A name the server draws between a request and its
      handler cannot be one that the request carries: nobody guesses it. */
  ghost predicate IsServed(ws: seq<World>, es: seq<Event>, purge: bool, ways: seq<Way>) {
    && |ws| == |es| + 1 && |ways| == |es|
    && (forall n :: 0 <= n < |es| && Handles(es[n].input) ==> Leads(ws, es, purge, n, ways[n]))
    && forall m, n :: 0 <= m < n < |es| && Handles(es[m].input) && Handles(es[n].input) ==>
         ways[m].prologue != ways[n].prologue && ways[m].check != ways[n].check
  }

  // ---------- how long after its prologue a proof is good ----------

  /** A nonce that has been drawn by some event was asked for before it. */
  lemma AskedBefore(ws: seq<World>, es: seq<Event>, p: nat, k: nat, user: Id, nonce: string)
    requires Flows(ws, es) && p < |es| && k < |es| && es[k].input == NewChallenge(user, nonce)
    requires nonce in ws[p].issued
    ensures k < p && es[k].now <= ws[p].clock
  {
    assert Uses(ws[k], es[k], ws[k + 1]);
    assert ContextOf(es[k]).draws == [nonce];
    assert nonce !in ws[k].issued;
    if p <= k {
      Flowing(ws, es, p, k);
    } else {
      Flowing(ws, es, k + 1, p);
    }
  }

  /** Served or not, a proof that passes comes less than a minute after any earlier event by which its
      nonce was drawn. */
  lemma PassesSoonAfter(ws: seq<World>, es: seq<Event>, purge: bool, p: nat, n: nat)
    requires IsRun(ws, es, purge) && p < n < |es| && Checked(ws[n].st, es[n]).Some? && Passes(ws[n].st, es[n])
    requires es[n].input.proof.nonce in ws[p].issued
    ensures es[n].now < es[p].now + CHALLENGE_LIFETIME
  {
    var user, nonce := es[n].input.user, es[n].input.proof.nonce;
    PassingWasAskedFor(ws, es, purge, n);
    var k :| 0 <= k < n && es[k].now <= es[n].now < es[k].now + CHALLENGE_LIFETIME
             && es[k].input == NewChallenge(user, nonce);
    RunFlows(ws, es, purge);
    AskedBefore(ws, es, p, k, user, nonce);
  }

  lemma PassingKnows(ws: seq<World>, es: seq<Event>, purge: bool, n: nat)
    requires IsRun(ws, es, purge) && n < |es| && Checked(ws[n].st, es[n]).Some? && Passes(ws[n].st, es[n])
    ensures es[n].input.proof.nonce in ws[n].issued && es[n].input.proof.nonce in Carries(es[n].input)
    ensures Handles(es[n].input)
  {
    RunNamed(ws, es, purge, n);
    PassingKnowsNonce(ws[n].st, es[n]);
  }

  /** In a served run a section whose proof passes comes less than a minute after its prologue. */
  lemma PassesWithinMinute(ws: seq<World>, es: seq<Event>, purge: bool, ways: seq<Way>, n: nat)
    requires IsRun(ws, es, purge) && IsServed(ws, es, purge, ways)
    requires n < |es| && Checked(ws[n].st, es[n]).Some? && Passes(ws[n].st, es[n])
    ensures Within(es, n, CHALLENGE_LIFETIME - 1)
  {
    PassingKnows(ws, es, purge, n);
    assert Leads(ws, es, purge, n, ways[n]);
    PassesSoonAfter(ws, es, purge, ways[n].prologue, n);
  }

  /** An approval has passed its proof. */
  lemma ApprovalPasses(ws: seq<World>, es: seq<Event>, purge: bool, k: nat, id: Id, v: SessionRec)
    requires IsRun(ws, es, purge) && k < |es| && ApprovedAt(ws, es, k, id, v)
    ensures Checked(ws[k].st, es[k]).Some? && Passes(ws[k].st, es[k])
  {
    GrantNow(ws, es, purge, k, id);
    OnlyOwnerEnlarges(ws, es, purge, k, id, Permission.View);
  }

  lemma GrantNow(ws: seq<World>, es: seq<Event>, purge: bool, k: nat, id: Id)
    requires IsRun(ws, es, purge) && k < |es|
    requires id in ws[k].st.sessions && ws[k].st.sessions[id].state == Pending
    requires id in ws[k + 1].st.sessions && ws[k + 1].st.sessions[id].state == Active
    ensures Gains(ws[k].st.sessions, ws[k + 1].st.sessions, id, View)
  {
    RunSound(ws, es, purge, k);
    RunSound(ws, es, purge, k + 1);
  }

  // ---------- the bound ----------

  /** In every served run an active session ends less than three minutes and eight hours after its
      creation, by two nanoseconds at least. */
  lemma ServedDeadline(ws: seq<World>, es: seq<Event>, purge: bool, ways: seq<Way>, n: nat, id: Id)
    requires IsRun(ws, es, purge) && IsServed(ws, es, purge, ways)
    requires n <= |es| && id in ws[n].st.sessions && ws[n].st.sessions[id].state == Active
    ensures ws[n].st.sessions[id].expires <= ws[n].st.sessions[id].created + LONGEST + CHALLENGE_LIFETIME - 2
  {
    forall k | 0 <= k < n && ApprovedAt(ws, es, k, id, ws[n].st.sessions[id])
      ensures Within(es, k, CHALLENGE_LIFETIME - 1)
    {
      ApprovalPasses(ws, es, purge, k, id, ws[n].st.sessions[id]);
      PassesWithinMinute(ws, es, purge, ways, k);
    }
    DeadlineBound(ws, es, purge, n, id, CHALLENGE_LIFETIME - 1);
  }

  /** In every served run a section whose proof passes acts on no session a minute or more after the
      session's deadline. */
  lemma ServedAction(ws: seq<World>, es: seq<Event>, purge: bool, ways: seq<Way>, n: nat, id: Id)
    requires IsRun(ws, es, purge) && IsServed(ws, es, purge, ways)
    requires n < |es| && Checked(ws[n].st, es[n]).Some? && Passes(ws[n].st, es[n])
    requires id in ws[n].st.sessions && Open(ws[n].st.sessions[id])
    ensures es[n].now <= ws[n].st.sessions[id].expires + CHALLENGE_LIFETIME - 2
  {
    PassesWithinMinute(ws, es, purge, ways, n);
    OpenBeforeDeadline(ws, es, purge, n, id, CHALLENGE_LIFETIME - 1);
  }
}
