/** What holds between any two moments of any run. */
module Flow {
  import opened Types
  import opened Model
  import opened Runs
  import opened Plans
  import opened Invariants
  import opened Credentials
  import opened Families
  import opened Worlds

  /** A device stays, with its owner and its key, and stays revoked. */
  predicate DevicesStay(devices: map<Id, DeviceRec>, devices': map<Id, DeviceRec>) {
    forall id :: id in devices ==>
      && id in devices'
      && devices'[id].owner == devices[id].owner && devices'[id].key == devices[id].key
      && (devices[id].revoked ==> devices'[id].revoked)
  }

  predicate AccountsStay(accounts: map<Id, AccountRec>, accounts': map<Id, AccountRec>) {
    forall u :: u in accounts ==> u in accounts' && accounts[u].version <= accounts'[u].version
  }

  /** What one section does to what lasts, whichever section it is. */
  ghost predicate Lasts(w: World, e: Event, w': World) {
    && w.clock <= e.now == w'.clock && w.issued <= w'.issued
    && Evolves(w.st.sessions, w'.st.sessions)
    && w.st.history <= w'.st.history
    && DevicesStay(w.st.devices, w'.st.devices)
    && AccountsStay(w.st.accounts, w'.st.accounts)
    && w'.st.key == w.st.key
  }

  /** What it does to what is used up. */
  ghost predicate Uses(w: World, e: Event, w': World) {
    && Fresh(ContextOf(e), w.issued)
    && RefreshMove(w.st.refresh, w'.st.refresh, w'.st.accounts, ContextOf(e))
    && ChallengesMove(w.st.challenges, w'.st.challenges, ContextOf(e))
  }

  ghost predicate Flows(ws: seq<World>, es: seq<Event>) {
    && |ws| == |es| + 1 && ws[0].st.challenges == map[]
    && forall n :: 0 <= n < |es| ==> Lasts(ws[n], es[n], ws[n + 1]) && Uses(ws[n], es[n], ws[n + 1])
  }

  lemma DevicesMoveStay(st: State, o: Outcome, x: Context)
    requires Sound(st, o, x)
    ensures DevicesStay(st.devices, o.base.devices)
  {
  }

  lemma SoundLasts(w: World, e: Event, o: Outcome, w': World)
    requires Sound(w.st, o, ContextOf(e)) && Trusty(w.st, o, ContextOf(e)) && w'.st == Commit(o, e.now)
    requires w.clock <= e.now == w'.clock && w.issued <= w'.issued
    requires forall y :: y in Draws(e.input) ==> y !in w.st.sessions
    ensures Lasts(w, e, w')
  {
    EffectEvolves(w.st, o, ContextOf(e));
    DevicesMoveStay(w.st, o, ContextOf(e));
  }

  lemma StepFlows(w: World, e: Event, purge: bool)
    requires Inv(w) && Enabled(w, e) && Defined(w.st, e.input)
    ensures Lasts(w, e, Step(w, e, purge)) && Uses(w, e, Step(w, e, purge))
  {
    DrawsAreNew(w, e);
    PlanIsSound(w.st, e, purge);
    PlanIsTrusty(w.st, e, purge);
    SoundLasts(w, e, Plan(w.st, e, purge), Step(w, e, purge));
  }

  lemma RunFlows(ws: seq<World>, es: seq<Event>, purge: bool)
    requires IsRun(ws, es, purge)
    ensures Flows(ws, es)
  {
    forall n | 0 <= n < |es| ensures Lasts(ws[n], es[n], ws[n + 1]) && Uses(ws[n], es[n], ws[n + 1]) {
      RunSound(ws, es, purge, n);
      StepFlows(ws[n], es[n], purge);
    }
  }

  lemma {:induction false} Flowing(ws: seq<World>, es: seq<Event>, i: nat, j: nat)
    requires Flows(ws, es) && i <= j <= |es|
    ensures Evolves(ws[i].st.sessions, ws[j].st.sessions)
    ensures ws[i].st.history <= ws[j].st.history
    ensures DevicesStay(ws[i].st.devices, ws[j].st.devices)
    ensures AccountsStay(ws[i].st.accounts, ws[j].st.accounts)
    ensures ws[i].issued <= ws[j].issued && ws[i].clock <= ws[j].clock && ws[i].st.key == ws[j].st.key
    decreases j
  {
    if i < j {
      Flowing(ws, es, i, j - 1);
      EvolvesOn(ws[i].st.sessions, ws[j - 1].st.sessions, ws[j].st.sessions);
    }
  }

  lemma EvolvesOn(a: map<Id, SessionRec>, b: map<Id, SessionRec>, c: map<Id, SessionRec>)
    requires Evolves(a, b) && Evolves(b, c)
    ensures Evolves(a, c)
  {
  }

  // ---------- sessions over a run ----------

  /** In any run the epoch of a session never goes back; two moments that show the same epoch show
      the same session, state, grant, deadline and all; who it joins and what was asked for never
      change; and a session that has ended is as it was for good. */
  lemma EpochNamesSnapshot(ws: seq<World>, es: seq<Event>, purge: bool, i: nat, j: nat, id: Id)
    requires IsRun(ws, es, purge) && i <= j <= |es| && id in ws[i].st.sessions
    ensures id in ws[j].st.sessions
    ensures var v, v' := ws[i].st.sessions[id], ws[j].st.sessions[id];
            && v.epoch <= v'.epoch
            && (v.epoch == v'.epoch <==> v == v')
            && SameIdentity(v, v')
            && (Terminal(v.state) ==> v' == v)
  {
    RunFlows(ws, es, purge);
    Flowing(ws, es, i, j);
  }

  /** The device registry only grows: owners and keys are for good, and so is revocation. */
  lemma RegistryOnlyGrows(ws: seq<World>, es: seq<Event>, purge: bool, i: nat, j: nat, id: Id)
    requires IsRun(ws, es, purge) && i <= j <= |es| && id in ws[i].st.devices
    ensures id in ws[j].st.devices
    ensures var d, d' := ws[i].st.devices[id], ws[j].st.devices[id];
            d'.owner == d.owner && d'.key == d.key && (d.revoked ==> d'.revoked)
  {
    RunFlows(ws, es, purge);
    Flowing(ws, es, i, j);
  }

  // ---------- refresh tokens over a run ----------

  lemma {:induction false} DeadForever(ws: seq<World>, es: seq<Event>, i: nat, j: nat, family: string)
    requires Flows(ws, es) && i <= j <= |es|
    requires Dead(ws[i].st.refresh, family) && family in ws[i].issued
    ensures Dead(ws[j].st.refresh, family)
    decreases j
  {
    if i < j {
      DeadForever(ws, es, i, j - 1, family);
      Flowing(ws, es, i, j - 1);
      var was, now' := ws[j - 1], ws[j];
      DeadStaysDead(was.st.refresh, now'.st.refresh, now'.st.accounts, ContextOf(es[j - 1]), was.issued, family);
    }
  }

  lemma {:induction false} SpentForever(ws: seq<World>, es: seq<Event>, i: nat, j: nat, raw: string)
    requires Flows(ws, es) && i <= j <= |es|
    requires Spent(ws[i].st.refresh, raw) && raw in ws[i].issued
    ensures Spent(ws[j].st.refresh, raw)
    decreases j
  {
    if i < j {
      SpentForever(ws, es, i, j - 1, raw);
      Flowing(ws, es, i, j - 1);
      var was, now' := ws[j - 1], ws[j];
      SpentStaysSpent(was.st.refresh, now'.st.refresh, now'.st.accounts, ContextOf(es[j - 1]), was.issued, raw);
    }
  }

  // ---------- challenges over a run ----------

  /** Once a nonce has been drawn and is not stored, it is never stored again. */
  lemma {:induction false} GoneForever(ws: seq<World>, es: seq<Event>, i: nat, j: nat, nonce: string)
    requires Flows(ws, es) && i <= j <= |es|
    requires nonce !in ws[i].st.challenges && nonce in ws[i].issued
    ensures nonce !in ws[j].st.challenges
    decreases j
  {
    if i < j {
      GoneForever(ws, es, i, j - 1, nonce);
      Flowing(ws, es, i, j - 1);
      assert Uses(ws[j - 1], es[j - 1], ws[j]);
    }
  }

  /** A stored challenge was asked for by its user, earlier in the run, and lasts a minute. */
  ghost predicate AskedFor(es: seq<Event>, n: nat, nonce: string, c: Challenge) {
    exists k :: 0 <= k < n <= |es| && es[k].input == NewChallenge(c.user, nonce)
                && c.expires == es[k].now + CHALLENGE_LIFETIME
  }

  lemma {:induction false} ChallengesAreAskedFor(ws: seq<World>, es: seq<Event>, n: nat, nonce: string)
    requires Flows(ws, es) && n <= |es| && nonce in ws[n].st.challenges
    ensures AskedFor(es, n, nonce, ws[n].st.challenges[nonce])
  {
    var c := ws[n].st.challenges[nonce];
    if n > 0 {
      var was, e := ws[n - 1], es[n - 1];
      assert Uses(was, e, ws[n]);
      if nonce in was.st.challenges && was.st.challenges[nonce] == c {
        ChallengesAreAskedFor(ws, es, n - 1, nonce);
      } else {
        assert e.input == NewChallenge(c.user, nonce);
      }
    }
  }
}
