/** Registrations and logins against the registrations before them, over whole runs. */
module Logins {
  import opened Types
  import opened Token
  import opened Model
  import opened Runs
  import opened Frames
  import opened Access

  /** The k-th event registers the address with the password, and is answered with tokens for u. */
  ghost predicate Registered(ws: seq<World>, es: seq<Event>, purge: bool, k: nat, email: string, password: string,
                             u: Id)
    requires |ws| == |es| + 1 && k < |es|
  {
    && es[k].input.Register? && es[k].input.email == email && es[k].input.password == password
    && Defined(ws[k].st, es[k].input) && Reply(ws[k], es[k], purge).Tokens?
    && Recipient(Reply(ws[k], es[k], purge)) == u
  }

  /** Within the first n events. */
  ghost predicate WasRegistered(ws: seq<World>, es: seq<Event>, purge: bool, n: nat, email: string, password: string,
                                u: Id)
    requires |ws| == |es| + 1 && n <= |es|
  {
    exists k: nat :: k < n && Registered(ws, es, purge, k, email, password, u)
  }

  ghost predicate IsTaken(ws: seq<World>, es: seq<Event>, purge: bool, n: nat, email: string)
    requires |ws| == |es| + 1 && n <= |es|
  {
    exists password, u :: WasRegistered(ws, es, purge, n, email, password, u)
  }

  /** A good address, a name of 1 to 80 and a password of 12 to 256 characters. */
  predicate Acceptable(i: Input)
    requires i.Register?
  {
    i.addressOk && 1 <= |i.name| <= 80 && 12 <= |i.password| <= 256
  }

  // ---------- the address book ----------

  /** The address is filed for u, whose password this is. */
  predicate IsFiled(st: State, email: string, password: string, u: Id) {
    && email in st.emails && st.emails[email] == u && u != ""
    && u in st.accounts && st.accounts[u].password == PasswordHash(password)
  }

  lemma RegisterFiles(st: State, e: Event, purge: bool)
    requires e.input.Register? && e.input.newId != ""
    ensures var o, i := Plan(st, e, purge), e.input;
            && (o.reply.Tokens? <==> Acceptable(i) && !(i.email in st.emails && st.emails[i.email] != ""))
            && (o.reply.Tokens? ==>
                  && Recipient(o.reply) == i.newId && IsFiled(o.base, i.email, i.password, i.newId)
                  && o.base.emails == st.emails[i.email := i.newId])
            && (!o.reply.Tokens? ==> o.base == st && o.effect == Quiet && o.tail == [])
  {
    var i := e.input;
    assert Plan(st, e, purge) ==
           PlanRegister(st, i.addressOk, i.email, i.name, i.password, i.newId, i.family, i.raw, e.now);
  }

  lemma FiledStays(ws: seq<World>, es: seq<Event>, n: nat, email: string, password: string, u: Id)
    requires Versioned(ws, es) && n < |es| && IsFiled(ws[n].st, email, password, u)
    ensures IsFiled(ws[n + 1].st, email, password, u)
  {
    assert Versions(ws[n], es[n], ws[n + 1]);
  }

  lemma FiledNow(ws: seq<World>, es: seq<Event>, purge: bool, k: nat)
    requires IsRun(ws, es, purge) && k < |es| && es[k].input.Register? && Reply(ws[k], es[k], purge).Tokens?
    ensures var i := es[k].input;
            && Registered(ws, es, purge, k, i.email, i.password, i.newId)
            && IsFiled(ws[k + 1].st, i.email, i.password, i.newId)
  {
    assert es[k].input.newId in Draws(es[k].input);
    RegisterFiles(ws[k].st, es[k], purge);
  }

  lemma {:induction false} FiledAfter(ws: seq<World>, es: seq<Event>, purge: bool, k: nat, n: nat, email: string,
                                      password: string, u: Id)
    requires IsRun(ws, es, purge) && Versioned(ws, es) && k < n <= |es|
    requires Registered(ws, es, purge, k, email, password, u)
    ensures IsFiled(ws[n].st, email, password, u)
    decreases n
  {
    if k + 1 == n {
      FiledNow(ws, es, purge, k);
    } else {
      FiledAfter(ws, es, purge, k, n - 1, email, password, u);
      FiledStays(ws, es, n - 1, email, password, u);
    }
  }

  lemma WasRegisteredStill(ws: seq<World>, es: seq<Event>, purge: bool, n: nat, email: string, password: string, u: Id)
    requires |ws| == |es| + 1 && n < |es| && WasRegistered(ws, es, purge, n, email, password, u)
    ensures WasRegistered(ws, es, purge, n + 1, email, password, u)
  {
  }

  lemma {:induction false} FiledBy(ws: seq<World>, es: seq<Event>, purge: bool, n: nat, email: string)
      returns (password: string)
    requires IsRun(ws, es, purge) && Versioned(ws, es) && n <= |es| && email in ws[n].st.emails
    ensures WasRegistered(ws, es, purge, n, email, password, ws[n].st.emails[email])
    ensures IsFiled(ws[n].st, email, password, ws[n].st.emails[email])
  {
    assert n > 0;
    var e := es[n - 1];
    if e.input.Register? && e.input.email == email && Reply(ws[n - 1], e, purge).Tokens? {
      password := e.input.password;
      FiledNow(ws, es, purge, n - 1);
    } else {
      SameAddress(ws[n - 1], e, purge, email);
      password := FiledBy(ws, es, purge, n - 1, email);
      FiledStays(ws, es, n - 1, email, password, ws[n - 1].st.emails[email]);
      WasRegisteredStill(ws, es, purge, n - 1, email, password, ws[n - 1].st.emails[email]);
    }
  }

  lemma SameAddress(w: World, e: Event, purge: bool, email: string)
    requires Enabled(w, e) && Defined(w.st, e.input) && email in Step(w, e, purge).st.emails
    requires !(e.input.Register? && e.input.email == email && Reply(w, e, purge).Tokens?)
    ensures email in w.st.emails
  {
    if e.input.Register? {
      assert e.input.newId in Draws(e.input);
      RegisterFiles(w.st, e, purge);
    } else {
      PlanFramed(w.st, e, purge);
    }
  }

  lemma FiledIffRegistered(ws: seq<World>, es: seq<Event>, purge: bool, n: nat, email: string, password: string, u: Id)
    requires IsRun(ws, es, purge) && n <= |es|
    ensures WasRegistered(ws, es, purge, n, email, password, u) <==> IsFiled(ws[n].st, email, password, u)
  {
    RunVersioned(ws, es, purge);
    if k: nat :| k < n && Registered(ws, es, purge, k, email, password, u) {
      FiledAfter(ws, es, purge, k, n, email, password, u);
    }
    if IsFiled(ws[n].st, email, password, u) {
      var p := FiledBy(ws, es, purge, n, email);
    }
  }

  lemma TakenIffFiled(ws: seq<World>, es: seq<Event>, purge: bool, n: nat, email: string)
    requires IsRun(ws, es, purge) && n <= |es|
    ensures IsTaken(ws, es, purge, n, email) <==> email in ws[n].st.emails && ws[n].st.emails[email] != ""
  {
    RunVersioned(ws, es, purge);
    if password, u :| WasRegistered(ws, es, purge, n, email, password, u) {
      FiledIffRegistered(ws, es, purge, n, email, password, u);
    }
    if email in ws[n].st.emails {
      var p := FiledBy(ws, es, purge, n, email);
    }
  }

  // ---------- registering ----------

  /** Tokens handed to u, with a new family, and one event. */
  predicate Welcomes(st: State, st': State, r: Response, u: Id, version: nat, code: nat, family: string, raw: string,
                     e: Audit) {
    && r == Tokens(code, Sign(st.key, u, version, e.at), raw)
    && st'.refresh == st.refresh[Digest(raw) := RefreshRec(u, family, e.at + 7 * DAY, false)]
    && st'.history == st.history + [e]
  }

  ghost predicate RegisterLaw(st: State, e: Event, taken: bool, r: Response, st': State)
    requires e.input.Register?
  {
    var i := e.input;
    && (!Acceptable(i) ==> r == Fail(400, BadRegistration) && st' == st)
    && (Acceptable(i) && taken ==> r == Fail(409, AccountTaken) && st' == st)
    && (Acceptable(i) && !taken ==>
          && Welcomes(st, st', r, i.newId, 0, 201, i.family, i.raw, Audit(i.newId, AccountRegistered, i.newId, e.now))
          && st' == st.(
               accounts := st.accounts[i.newId := AccountRec(i.newId, i.email, i.name, PasswordHash(i.password), 0)],
               emails := st.emails[i.email := i.newId], refresh := st'.refresh, history := st'.history))
  }

  lemma QuietLeaves(o: Outcome, now: Time)
    requires o.effect == Quiet
    ensures Commit(o, now) == o.base.(history := o.base.history + o.tail)
    ensures o.tail == [] ==> Commit(o, now) == o.base
  {
    assert o.base.history + [] + o.tail == o.base.history + o.tail;
  }

  lemma RegisterIsLawful(st: State, e: Event, purge: bool)
    requires e.input.Register?
    ensures var o := Plan(st, e, purge);
            RegisterLaw(st, e, e.input.email in st.emails && st.emails[e.input.email] != "", o.reply, Commit(o, e.now))
  {
    var i := e.input;
    var o := Plan(st, e, purge);
    assert o == PlanRegister(st, i.addressOk, i.email, i.name, i.password, i.newId, i.family, i.raw, e.now);
    assert o.effect == Quiet;
    QuietLeaves(o, e.now);
  }

  /** In any run: a registration makes an account exactly if it is acceptable and no registration of that
      address was answered with tokens before; otherwise it changes nothing. */
  lemma RegisterIsExact(ws: seq<World>, es: seq<Event>, purge: bool, n: nat)
    requires IsRun(ws, es, purge) && n < |es| && es[n].input.Register?
    ensures RegisterLaw(ws[n].st, es[n], IsTaken(ws, es, purge, n, es[n].input.email),
                        Reply(ws[n], es[n], purge), ws[n + 1].st)
  {
    TakenIffFiled(ws, es, purge, n, es[n].input.email);
    RegisterIsLawful(ws[n].st, es[n], purge);
  }

  // ---------- logging in ----------

  lemma LoginGrants(st: State, e: Event, purge: bool, u: Id)
    requires e.input.Login? && |e.input.password| <= 256 && IsFiled(st, e.input.email, e.input.password, u)
    ensures var o, i := Plan(st, e, purge), e.input;
            Welcomes(st, Commit(o, e.now), o.reply, u, st.accounts[u].version, 200, i.family, i.raw,
                     Audit(u, AccountLogin, u, e.now))
  {
    var i := e.input;
    var o := Plan(st, e, purge);
    assert o == PlanLogin(st, i.email, i.password, i.family, i.raw, e.now);
    assert o.base.history + [] + o.tail == o.base.history + o.tail;
  }

  lemma LoginRefuses(st: State, e: Event, purge: bool)
    requires e.input.Login? && "" !in st.accounts
    requires |e.input.password| > 256 || forall u :: !IsFiled(st, e.input.email, e.input.password, u)
    ensures var o := Plan(st, e, purge);
            && o.reply == Fail(if |e.input.password| > 256 then 400 else 401, InvalidCredentials)
            && Commit(o, e.now) == st
  {
    var i := e.input;
    var o := Plan(st, e, purge);
    assert o == PlanLogin(st, i.email, i.password, i.family, i.raw, e.now);
    assert st.history + [] + [] == st.history;
    if AccountFor(st, i.email, i.password).Some? {
      assert IsFiled(st, i.email, i.password, AccountFor(st, i.email, i.password).value);
    }
  }

  /** In any run: a login is answered with tokens for u exactly if some earlier registration of that address
      and that password was. Otherwise it is refused and changes nothing. */
  lemma LoginIsExact(ws: seq<World>, es: seq<Event>, purge: bool, n: nat, u: Id)
    requires IsRun(ws, es, purge) && n < |es| && es[n].input.Login? && |es[n].input.password| <= 256
    ensures var i, r := es[n].input, Reply(ws[n], es[n], purge);
            && (r.Tokens? && Recipient(r) == u <==> WasRegistered(ws, es, purge, n, i.email, i.password, u))
            && (!r.Tokens? ==> r == Fail(401, InvalidCredentials) && ws[n + 1].st == ws[n].st)
            && (r.Tokens? && Recipient(r) == u ==>
                  && u in ws[n].st.accounts
                  && Welcomes(ws[n].st, ws[n + 1].st, r, u, ws[n].st.accounts[u].version, 200, i.family, i.raw,
                              Audit(u, AccountLogin, u, es[n].now)))
  {
    var i := es[n].input;
    NoEmptyName(ws, es, purge, n);
    FiledIffRegistered(ws, es, purge, n, i.email, i.password, u);
    if v: Id :| IsFiled(ws[n].st, i.email, i.password, v) {
      LoginGrants(ws[n].st, es[n], purge, v);
    } else {
      LoginRefuses(ws[n].st, es[n], purge);
    }
  }

  /** A password of more than 256 characters is refused unread. */
  lemma LongPasswordIsRefused(ws: seq<World>, es: seq<Event>, purge: bool, n: nat)
    requires IsRun(ws, es, purge) && n < |es| && es[n].input.Login? && |es[n].input.password| > 256
    ensures Reply(ws[n], es[n], purge) == Fail(400, InvalidCredentials) && ws[n + 1].st == ws[n].st
  {
    NoEmptyName(ws, es, purge, n);
    LoginRefuses(ws[n].st, es[n], purge);
  }

  // ---------- rotating ----------

  predicate IsStoredInTime(st: State, d: Digest, now: Time) {
    d in st.refresh && now < st.refresh[d].expires
  }

  /** A token that is unknown or over changes nothing; one that is used for the first time gives way to a
      new one of its family and user. */
  ghost predicate RotateLaw(st: State, e: Event, r: Response, st': State)
    requires e.input.Rotate?
  {
    var d, raw := Digest(e.input.token), e.input.raw;
    && (r == Fail(401, InvalidRefresh) <==> !IsStoredInTime(st, d, e.now))
    && (!IsStoredInTime(st, d, e.now) ==> st' == st)
    && (r.Tokens? <==> IsStoredInTime(st, d, e.now) && !st.refresh[d].used)
    && (r.Tokens? ==>
          var t := st.refresh[d];
          && t.user in st.accounts
          && r == Tokens(200, Sign(st.key, t.user, st.accounts[t.user].version, e.now), raw)
          && st' == st.(refresh := st.refresh[d := t.(used := true)]
                                             [Digest(raw) := RefreshRec(t.user, t.family, e.now + 7 * DAY, false)]))
  }

  lemma RotateIsLawful(st: State, e: Event)
    requires e.input.Rotate? && OwnersExist(st)
    ensures var o := PlanRotate(st, e.input.token, e.input.raw, e.now, e.order);
            RotateLaw(st, e, o.reply, Commit(o, e.now))
  {
    assert st.history + [] + [] == st.history;
  }

  /** In any run: a refresh token is exchanged exactly if it is stored, in time and unused. What a used one
      does is the matter of Terminations.ReuseIsExact. */
  lemma RotateIsExact(ws: seq<World>, es: seq<Event>, purge: bool, n: nat)
    requires IsRun(ws, es, purge) && n < |es| && es[n].input.Rotate?
    ensures RotateLaw(ws[n].st, es[n], Reply(ws[n], es[n], purge), ws[n + 1].st)
  {
    var i := es[n].input;
    assert Plan(ws[n].st, es[n], purge) == PlanRotate(ws[n].st, i.token, i.raw, es[n].now, es[n].order);
    RotateIsLawful(ws[n].st, es[n]);
  }
}
