/** The invariant of every run. */
module Worlds {
  import opened Types
  import opened Model
  import opened Runs
  import opened Plans
  import opened Invariants
  import opened History
  import opened Credentials
  import opened Families

  /** Every name in use was drawn before, so a fresh one is in use nowhere. */
  ghost predicate Named(w: World) {
    && w.st.sessions.Keys <= w.issued
    && w.st.devices.Keys <= w.issued
    && w.st.accounts.Keys <= w.issued
    && w.st.challenges.Keys <= w.issued
    && Drawn(w.st.refresh, w.issued)
  }

  ghost predicate SessionsSound(st: State) {
    && Keyed(st.devices, st.sessions)
    && Grants(st.sessions)
    && Exclusive(st.sessions)
    && OnePerTarget(st.sessions)
    && WithinQuota(st.sessions)
    && Referential(st.devices, st.sessions)
    && Registry(st.devices)
    && Determined(st.sessions, st.history)
  }

  ghost predicate TokensSound(w: World) {
    && SoundFamilies(w.st.refresh)
    && WithinLifetime(w.st.refresh, w.clock)
    && OwnersExist(w.st)
  }

  ghost predicate Inv(w: World) {
    w.clock >= 0 && Named(w) && SessionsSound(w.st) && TokensSound(w)
  }

  lemma StartSound(key: string, iceUrls: seq<string>)
    ensures Inv(Start(key, iceUrls))
  {
    var w := Start(key, iceUrls);
    forall user: Id ensures OpenOf(w.st.sessions, user) == {} && ActiveDevices(w.st.devices, user) == {} {
    }
  }

  /** No account, device or session that the code looks up without a check is missing, peers apart. */
  lemma LookupsSucceed(w: World, e: Event)
    requires Inv(w) && Enabled(w, e)
    ensures Defined(w.st, e.input)
  {
  }

  lemma DrawsAreNew(w: World, e: Event)
    requires Named(w) && Enabled(w, e)
    ensures forall y :: y in Draws(e.input) ==>
              y !in w.st.sessions && y !in w.st.devices && y !in w.st.accounts && Digest(y) !in w.st.refresh
    ensures Fresh(ContextOf(e), w.issued)
  {
    forall y | y in Draws(e.input)
      ensures y !in w.st.sessions && y !in w.st.devices && y !in w.st.accounts && Digest(y) !in w.st.refresh
    {
      assert y !in w.issued;
    }
  }

  lemma SessionsSoundKept(w: World, e: Event, purge: bool)
    requires Inv(w) && Enabled(w, e) && Defined(w.st, e.input)
    ensures SessionsSound(Step(w, e, purge).st)
  {
    var o, x := Plan(w.st, e, purge), ContextOf(e);
    DrawsAreNew(w, e);
    PlanIsSound(w.st, e, purge);
    KeyedKept(w.st, o, x);
    GrantsKept(w.st, o, x);
    ExclusiveKept(w.st, o, x);
    OnePerTargetKept(w.st, o, x);
    WithinQuotaKept(w.st, o, x);
    ReferentialKept(w.st, o, x);
    RegistryKept(w.st, o, x);
    DeterminedKept(w.st, o, x);
  }

  lemma OwnersKept(w: World, o: Outcome, x: Context)
    requires Trusty(w.st, o, x) && OwnersExist(w.st)
    ensures OwnersExist(o.base)
  {
  }

  lemma TokensSoundKept(w: World, e: Event, purge: bool)
    requires Inv(w) && Enabled(w, e) && Defined(w.st, e.input)
    ensures TokensSound(Step(w, e, purge))
  {
    var o, x := Plan(w.st, e, purge), ContextOf(e);
    DrawsAreNew(w, e);
    PlanIsTrusty(w.st, e, purge);
    FamiliesKept(w.st.refresh, o.base.refresh, o.base.accounts, x, w.clock, w.issued);
    OwnersKept(w, o, x);
  }

  lemma NamedKept(w: World, e: Event, purge: bool)
    requires Inv(w) && Enabled(w, e) && Defined(w.st, e.input)
    ensures Named(Step(w, e, purge))
  {
    var o, x, w' := Plan(w.st, e, purge), ContextOf(e), Step(w, e, purge);
    DrawsAreNew(w, e);
    PlanIsSound(w.st, e, purge);
    PlanIsTrusty(w.st, e, purge);
    DrawnKept(w.st.refresh, o.base.refresh, o.base.accounts, x, w.issued);
    forall id | id in w'.st.sessions ensures id in w'.issued {
      if id !in w.st.sessions {
        NewSession(w.st, o, x, id);
        assert x.draws[0] in Draws(e.input);
      }
    }
    forall id | id in w'.st.devices ensures id in w'.issued {
      if id !in w.st.devices {
        assert x.draws[0] in Draws(e.input);
      }
    }
  }

  lemma StepSound(w: World, e: Event, purge: bool)
    requires Inv(w) && Enabled(w, e)
    ensures Defined(w.st, e.input) && Inv(Step(w, e, purge))
  {
    LookupsSucceed(w, e);
    SessionsSoundKept(w, e, purge);
    TokensSoundKept(w, e, purge);
    NamedKept(w, e, purge);
  }

  lemma {:induction false} RunSound(ws: seq<World>, es: seq<Event>, purge: bool, n: nat)
    requires IsRun(ws, es, purge) && n < |ws|
    ensures Inv(ws[n])
  {
    if n == 0 {
      var key, iceUrls :| ws[0] == Start(key, iceUrls);
      StartSound(key, iceUrls);
    } else {
      RunSound(ws, es, purge, n - 1);
      StepSound(ws[n - 1], es[n - 1], purge);
    }
  }

  lemma RunNamed(ws: seq<World>, es: seq<Event>, purge: bool, n: nat)
    requires IsRun(ws, es, purge) && n < |ws|
    ensures Named(ws[n])
  {
    RunSound(ws, es, purge, n);
  }

  lemma {:induction false} ClockIsPositive(ws: seq<World>, es: seq<Event>, purge: bool, n: nat)
    requires IsRun(ws, es, purge) && n <= |es|
    ensures ws[n].clock >= 0
  {
    if n > 0 {
      ClockIsPositive(ws, es, purge, n - 1);
    }
  }
}
