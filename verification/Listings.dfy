/** What the requests that only read are answered, in any run. */
module Listings {
  import opened Wrappers
  import opened Types
  import opened AuditLog
  import opened Model
  import opened Runs
  import opened Rulings

  // ---------- the audit page ----------

  /** The user did it, or it is about a device of the user's or a session the user is party to. */
  predicate Mentions(st: State, user: Id, e: Audit) {
    || e.actor == user
    || (e.resource in st.devices && st.devices[e.resource].owner == user)
    || (e.resource in st.sessions && PartyTo(st, st.sessions[e.resource], user))
  }

  lemma {:induction false} NewestAgrees<T>(s: seq<T>, want: T -> bool, want': T -> bool, limit: nat)
    requires forall x :: x in s ==> (want(x) <==> want'(x))
    ensures Newest(s, want, limit) == Newest(s, want', limit)
    decreases |s|
  {
    if s != [] && limit != 0 {
      NewestAgrees(s[..|s| - 1], want, want', if want(s[|s| - 1]) then limit - 1 else limit);
    }
  }

  /** In any run: a listing is answered with the newest 200, newest first, of those among the last 10000 events
      that mention the user, and changes nothing. */
  lemma ListingIsExact(ws: seq<World>, es: seq<Event>, purge: bool, n: nat)
    requires IsRun(ws, es, purge) && n < |es| && es[n].input.ListAudit?
    ensures var st, user := ws[n].st, es[n].input.user;
            && Reply(ws[n], es[n], purge) ==
               AuditOut(Newest(Last(st.history, 10_000), e => Mentions(st, user, e), 200))
            && ws[n + 1].st == st
  {
    var st, user := ws[n].st, es[n].input.user;
    assert Plan(st, es[n], purge) == PlanListAudit(st, user);
    assert st.history + [] + [] == st.history;
    NewestAgrees(Last(st.history, 10_000), Wanted(st.devices, st.sessions, user), e => Mentions(st, user, e), 200);
  }

  // ---------- relay addresses ----------

  predicate MayRelay(st: State, user: Id, id: Id, now: Time) {
    && id in st.sessions && PartyTo(st, st.sessions[id], user)
    && st.sessions[id].state == Active && now < st.sessions[id].expires
  }

  /** A party to an active session before its deadline, and nobody else, gets the configured addresses, with a
      credential of its own on the relays among them, for ten minutes or for what is left of the session. */
  predicate RelayLaw(st: State, user: Id, id: Id, now: Time, r: Response) {
    var party := id in st.sessions && PartyTo(st, st.sessions[id], user);
    && (r.IceOut? <==> MayRelay(st, user, id, now) && st.iceUrls != [])
    && (r == Fail(404, SessionNotFound) <==> !party)
    && (r == Fail(403, ApprovedSessionRequired) <==> party && !MayRelay(st, user, id, now))
    && (r == Fail(503, NoRelay) <==> MayRelay(st, user, id, now) && st.iceUrls == [])
    && (r.IceOut? ==>
          && r.expires <= now + 10 * MINUTE && r.expires <= st.sessions[id].expires
          && (r.expires == now + 10 * MINUTE || r.expires == st.sessions[id].expires)
          && |r.entries| == |st.iceUrls|
          && forall i :: 0 <= i < |r.entries| ==>
               r.entries[i] == IceEntry(st.iceUrls[i],
                 if "turn:" <= st.iceUrls[i] || "turns:" <= st.iceUrls[i]
                 then Some(Credential(user, r.expires / SECOND)) else None))
  }

  lemma IceIsLawful(st: State, user: Id, id: Id, now: Time)
    ensures RelayLaw(st, user, id, now, PlanIce(st, user, id, now).reply)
    ensures Commit(PlanIce(st, user, id, now), now) == st
  {
    assert st.history + [] + [] == st.history;
  }

  lemma RelaysAreExact(ws: seq<World>, es: seq<Event>, purge: bool, n: nat)
    requires IsRun(ws, es, purge) && n < |es| && es[n].input.IceConfiguration?
    ensures RelayLaw(ws[n].st, es[n].input.user, es[n].input.id, es[n].now, Reply(ws[n], es[n], purge))
    ensures ws[n + 1].st == ws[n].st
  {
    assert Plan(ws[n].st, es[n], purge) == PlanIce(ws[n].st, es[n].input.user, es[n].input.id, es[n].now);
    IceIsLawful(ws[n].st, es[n].input.user, es[n].input.id, es[n].now);
  }
}
