/** How long an access token is good, over whole runs. */
module Access {
  import opened Types
  import opened Token
  import opened Model
  import opened Runs
  import opened Frames
  import opened Credentials
  import opened Worlds
  import opened Flow

  /** A token that is stored, in time and used up is presented again. */
  predicate Reuses(st: State, e: Event) {
    e.input.Rotate? && var d := Digest(e.input.token);
    d in st.refresh && e.now < st.refresh[d].expires && st.refresh[d].used
  }

  // ---------- access tokens ----------

  /** A section that makes every access token of the user out of date. */
  predicate Invalidates(st: State, e: Event, user: Id) {
    e.input == Logout(user) || (Reuses(st, e) && st.refresh[Digest(e.input.token)].user == user)
  }

  ghost predicate VersionsMove(st: State, e: Event, o: Outcome) {
    forall u :: u in st.accounts ==>
      u in o.base.accounts &&
      o.base.accounts[u].version == st.accounts[u].version + if Invalidates(st, e, u) then 1 else 0
  }

  lemma RegisterVersions(st: State, e: Event, purge: bool)
    requires e.input.Register? && e.input.newId !in st.accounts
    ensures VersionsMove(st, e, Plan(st, e, purge))
  {
  }

  lemma InvalidateVersions(st: State, user: Id)
    requires user in st.accounts
    ensures var a := Invalidate(st, user).accounts;
            && (forall u :: u in st.accounts ==>
                  u in a && a[u].version == st.accounts[u].version + if u == user then 1 else 0)
  {
  }

  lemma RotateVersions(st: State, e: Event, purge: bool)
    requires e.input.Rotate? && OwnersExist(st)
    ensures VersionsMove(st, e, Plan(st, e, purge))
  {
    if Reuses(st, e) {
      var t := st.refresh[Digest(e.input.token)];
      InvalidateVersions(st.(refresh := UseFamily(st.refresh, t.family)), t.user);
    }
  }

  /** A version moves on exactly when the user is invalidated. */
  lemma PlanVersions(st: State, e: Event, purge: bool)
    requires Defined(st, e.input)
    requires e.input.Register? ==> e.input.newId !in st.accounts
    ensures VersionsMove(st, e, Plan(st, e, purge))
  {
    PlanFramed(st, e, purge);
    match e.input
    case Register(_, _, _, _, _, _, _) => RegisterVersions(st, e, purge);
    case Rotate(_, _) => RotateVersions(st, e, purge);
    case Logout(user) => InvalidateVersions(st, user);
    case _ =>
  }

  /** Accounts stay, with their password, under the address they have. */
  predicate AccountsKept(st: State, st': State) {
    && (forall u :: u in st.accounts ==> u in st'.accounts && st'.accounts[u].password == st.accounts[u].password)
    && (forall m :: m in st.emails && st.emails[m] != "" ==> m in st'.emails && st'.emails[m] == st.emails[m])
  }

  lemma RegisterKeepsAccounts(st: State, ok: bool, email: string, name: string, password: string,
                              id: Id, family: string, raw: string, now: Time)
    requires id !in st.accounts
    ensures AccountsKept(st, PlanRegister(st, ok, email, name, password, id, family, raw, now).base)
  {
  }

  lemma InvalidateKeepsAccounts(st: State, user: Id)
    requires user in st.accounts
    ensures AccountsKept(st, Invalidate(st, user))
  {
  }

  lemma RotateKeepsAccounts(st: State, e: Event, purge: bool)
    requires e.input.Rotate? && OwnersExist(st)
    ensures AccountsKept(st, Plan(st, e, purge).base)
  {
    if Reuses(st, e) {
      var t := st.refresh[Digest(e.input.token)];
      InvalidateKeepsAccounts(st.(refresh := UseFamily(st.refresh, t.family)), t.user);
    }
  }

  lemma PlanKeepsAccounts(st: State, e: Event, purge: bool)
    requires Defined(st, e.input)
    requires e.input.Register? ==> e.input.newId !in st.accounts
    ensures AccountsKept(st, Plan(st, e, purge).base)
  {
    match e.input
    case Register(ok, email, name, password, id, family, raw) =>
      RegisterKeepsAccounts(st, ok, email, name, password, id, family, raw, e.now);
    case Rotate(_, _) => RotateKeepsAccounts(st, e, purge);
    case Logout(user) => InvalidateKeepsAccounts(st, user);
    case _ => PlanFramed(st, e, purge);
  }

  ghost predicate Versions(w: World, e: Event, w': World) {
    && "" !in w.st.accounts && AccountsKept(w.st, w'.st)
    && forall u :: u in w.st.accounts ==>
         u in w'.st.accounts &&
         w'.st.accounts[u].version == w.st.accounts[u].version + if Invalidates(w.st, e, u) then 1 else 0
  }

  ghost predicate Versioned(ws: seq<World>, es: seq<Event>) {
    |ws| == |es| + 1 && forall n :: 0 <= n < |es| ==> Versions(ws[n], es[n], ws[n + 1])
  }

  lemma {:induction false} NoEmptyName(ws: seq<World>, es: seq<Event>, purge: bool, n: nat)
    requires IsRun(ws, es, purge) && n <= |es|
    ensures "" !in ws[n].st.accounts
  {
    if n > 0 {
      NoEmptyName(ws, es, purge, n - 1);
      NoEmptyNameStep(ws, es, purge, n - 1);
    }
  }

  lemma NoEmptyNameStep(ws: seq<World>, es: seq<Event>, purge: bool, n: nat)
    requires IsRun(ws, es, purge) && n < |es| && "" !in ws[n].st.accounts
    ensures "" !in ws[n + 1].st.accounts
  {
    RunNamed(ws, es, purge, n);
    DrawsAreNew(ws[n], es[n]);
    PlanIsTrusty(ws[n].st, es[n], purge);
    assert "" !in Draws(es[n].input);
  }

  lemma StepVersions(w: World, e: Event, purge: bool)
    requires Named(w) && Enabled(w, e) && Defined(w.st, e.input) && "" !in w.st.accounts
    ensures Versions(w, e, Step(w, e, purge))
  {
    DrawsAreNew(w, e);
    assert e.input.Register? ==> e.input.newId in Draws(e.input);
    PlanVersions(w.st, e, purge);
    PlanKeepsAccounts(w.st, e, purge);
  }

  lemma RunVersioned(ws: seq<World>, es: seq<Event>, purge: bool)
    requires IsRun(ws, es, purge)
    ensures Versioned(ws, es)
  {
    forall n | 0 <= n < |es| ensures Versions(ws[n], es[n], ws[n + 1]) {
      NoEmptyName(ws, es, purge, n);
      RunNamed(ws, es, purge, n);
      StepVersions(ws[n], es[n], purge);
    }
  }

  ghost predicate InvalidatedBetween(ws: seq<World>, es: seq<Event>, k: nat, j: nat, user: Id)
    requires k <= j <= |es| < |ws|
  {
    exists i :: k <= i < j && Invalidates(ws[i].st, es[i], user)
  }

  /** The version has moved on exactly if the user was invalidated in between. */
  lemma {:induction false} VersionTells(ws: seq<World>, es: seq<Event>, k: nat, j: nat, user: Id)
    requires Versioned(ws, es) && k <= j <= |es| && user in ws[k].st.accounts
    ensures user in ws[j].st.accounts && ws[k].st.accounts[user].version <= ws[j].st.accounts[user].version
    ensures ws[k].st.accounts[user].version == ws[j].st.accounts[user].version <==>
            !InvalidatedBetween(ws, es, k, j, user)
    decreases j
  {
    if k < j {
      VersionTells(ws, es, k, j - 1, user);
      assert Versions(ws[j - 1], es[j - 1], ws[j]);
      assert InvalidatedBetween(ws, es, k, j, user) <==>
             InvalidatedBetween(ws, es, k, j - 1, user) || Invalidates(ws[j - 1].st, es[j - 1], user);
    }
  }

  lemma {:induction false} AccountStays(ws: seq<World>, es: seq<Event>, i: nat, j: nat, email: string, password: string)
    requires Versioned(ws, es) && i <= j <= |es| && "" !in ws[i].st.accounts
    requires AccountFor(ws[i].st, email, password).Some?
    ensures AccountFor(ws[j].st, email, password) == AccountFor(ws[i].st, email, password)
    decreases j
  {
    if i < j {
      AccountStays(ws, es, i, j - 1, email, password);
      assert Versions(ws[j - 1], es[j - 1], ws[j]);
    }
  }

  /** `login` looks the account up in one section and issues in a later one: whatever comes between,
      the account it found is still the one the address and the password name. */
  lemma LookupLasts(ws: seq<World>, es: seq<Event>, purge: bool, i: nat, j: nat, email: string, password: string)
    requires IsRun(ws, es, purge) && i <= j <= |es| && AccountFor(ws[i].st, email, password).Some?
    ensures AccountFor(ws[j].st, email, password) == AccountFor(ws[i].st, email, password)
  {
    RunVersioned(ws, es, purge);
    NoEmptyName(ws, es, purge, i);
    AccountStays(ws, es, i, j, email, password);
  }

  /** Whom an answer with tokens is for. */
  function Recipient(r: Response): Id {
    if r.Tokens? && r.access.AccessToken? && r.access.body.Body? then r.access.body.claims.subject else ""
  }

  /** An answer with tokens signs the recipient's version of that moment, with the server's key. */
  predicate SignsVersion(st: State, o: Outcome, now: Time) {
    o.reply.Tokens? ==>
      var user := Recipient(o.reply);
      user in o.base.accounts && o.reply.access == Sign(st.key, user, o.base.accounts[user].version, now)
  }

  lemma RegisterSigns(st: State, ok: bool, email: string, name: string, password: string,
                      id: Id, family: string, raw: string, now: Time)
    ensures SignsVersion(st, PlanRegister(st, ok, email, name, password, id, family, raw, now), now)
  {
  }

  lemma LoginSigns(st: State, email: string, password: string, family: string, raw: string, now: Time)
    ensures SignsVersion(st, PlanLogin(st, email, password, family, raw, now), now)
  {
  }

  lemma RotateSigns(st: State, token: string, raw: string, now: Time, order: seq<Id>)
    requires OwnersExist(st)
    ensures SignsVersion(st, PlanRotate(st, token, raw, now, order), now)
  {
  }

  lemma PlanSigns(st: State, e: Event, purge: bool)
    requires Defined(st, e.input)
    ensures SignsVersion(st, Plan(st, e, purge), e.now)
  {
    match e.input
    case Register(ok, email, name, password, id, family, raw) =>
      RegisterSigns(st, ok, email, name, password, id, family, raw, e.now);
    case Login(email, password, family, raw) => LoginSigns(st, email, password, family, raw, e.now);
    case Rotate(token, raw) => RotateSigns(st, token, raw, e.now, e.order);
    case _ => PlanFramed(st, e, purge);
  }

  lemma SignedAnswer(ws: seq<World>, es: seq<Event>, purge: bool, k: nat)
    requires IsRun(ws, es, purge) && k < |es| && Reply(ws[k], es[k], purge).Tokens?
    ensures var user := Recipient(Reply(ws[k], es[k], purge));
            && user in ws[k + 1].st.accounts
            && Reply(ws[k], es[k], purge).access ==
               Sign(ws[k].st.key, user, ws[k + 1].st.accounts[user].version, es[k].now)
  {
    PlanSigns(ws[k].st, es[k], purge);
  }

  /** Presenting a token that the service signed. */
  lemma SignedIsTaken(st: State, user: Id, version: nat, t: Time, now: Time)
    ensures var o := PlanVerifyAccess(st, Sign(st.key, user, version, t), now);
            o.reply == if user != "" && Unix(t) - 60 <= Unix(now) < Unix(t) + 600 &&
                          user in st.accounts && st.accounts[user].version == version
                       then Subject(user) else Fail(401, InvalidAccess)
  {
    SignedWindow(st.key, user, version, t, now);
  }

  /** The section answers the user with this access token. */
  ghost predicate HandsOut(w: World, e: Event, purge: bool, user: Id, token: AccessToken) {
    && Defined(w.st, e.input) && Reply(w, e, purge).Tokens?
    && Reply(w, e, purge).access == token && Recipient(Reply(w, e, purge)) == user
  }

  /** In any run an access token is accepted, as its recipient's, exactly in the ten minutes after
      the second it was signed in and while that user has not been invalidated since. The clock is
      read before the mutex is taken, so that reading may be a little older than the section. */
  lemma AccessIsExact(ws: seq<World>, es: seq<Event>, purge: bool, k: nat, j: nat, user: Id, token: AccessToken)
    requires IsRun(ws, es, purge) && k < j < |es|
    requires HandsOut(ws[k], es[k], purge, user, token) && Presents(es[j], token)
    ensures Reply(ws[j], es[j], purge) ==
            if InWindow(es[k].now, es[j].input.read) && !InvalidatedBetween(ws, es, k + 1, j, user)
            then Subject(user) else Fail(401, InvalidAccess)
  {
    SignedAnswer(ws, es, purge, k);
    var version := ws[k + 1].st.accounts[user].version;
    SignedIsTaken(ws[j].st, user, version, es[k].now, es[j].input.read);
    SameKeyLater(ws, es, purge, k, j);
    VersionLater(ws, es, purge, k + 1, j, user);
  }

  predicate Presents(e: Event, token: AccessToken) {
    e.input.VerifyAccess? && e.input.access == token
  }

  /** From a minute before the second of signing to ten minutes after it. */
  predicate InWindow(signed: Time, read: Time) {
    Unix(signed) - 60 <= Unix(read) < Unix(signed) + 600
  }

  // ---------- tokens that nobody forged ----------

  /** Nobody else makes a MAC with the server's key: one that is presented is the MAC of a token
      handed out before, whatever it is presented with. */
  ghost predicate Unforged(ws: seq<World>, es: seq<Event>, purge: bool)
    requires |ws| == |es| + 1
  {
    forall j :: 0 <= j < |es| && es[j].input.VerifyAccess? ==> Earned(ws, es, purge, j, es[j].input.access)
  }

  ghost predicate Earned(ws: seq<World>, es: seq<Event>, purge: bool, j: nat, token: AccessToken)
    requires j < |es| < |ws|
  {
    token.AccessToken? && token.mac.Mac? && token.mac.key == ws[j].st.key ==>
      exists k, user, t :: 0 <= k < j && HandsOut(ws[k], es[k], purge, user, t) && t.AccessToken? && t.mac == token.mac
  }

  /** The token was handed out to the user, is in its window, and the user was not invalidated since. */
  ghost predicate HoldsGood(ws: seq<World>, es: seq<Event>, purge: bool, k: nat, j: nat, user: Id)
    requires j < |es| < |ws| && es[j].input.VerifyAccess?
  {
    && k < j && HandsOut(ws[k], es[k], purge, user, es[j].input.access)
    && InWindow(es[k].now, es[j].input.read) && !InvalidatedBetween(ws, es, k + 1, j, user)
  }

  /** A MAC is good for the token it was made for and for no other. */
  lemma SameMacSameToken(ws: seq<World>, es: seq<Event>, purge: bool, k: nat, user: Id, t: AccessToken,
                         st: State, token: AccessToken, read: Time)
    requires IsRun(ws, es, purge) && k < |es| && HandsOut(ws[k], es[k], purge, user, t)
    requires token.AccessToken? && t.AccessToken? && t.mac == token.mac && Verify(st.key, token, read).Some?
    ensures t == token
  {
    SignedAnswer(ws, es, purge, k);
  }

  lemma AcceptedVerifies(st: State, token: AccessToken, read: Time, user: Id)
    requires PlanVerifyAccess(st, token, read).reply == Subject(user)
    ensures Verify(st.key, token, read).Some? && token.AccessToken? && token.mac.Mac? && token.mac.key == st.key
  {
  }

  /** In any run in which no MAC is forged, the tokens accepted as a user's are exactly those that
      were handed out to that user, in their window, with no invalidation of the user since. */
  lemma AcceptedWasHandedOut(ws: seq<World>, es: seq<Event>, purge: bool, j: nat, user: Id)
    requires IsRun(ws, es, purge) && Unforged(ws, es, purge) && j < |es| && es[j].input.VerifyAccess?
    ensures Reply(ws[j], es[j], purge) == Subject(user) <==> exists k: nat :: HoldsGood(ws, es, purge, k, j, user)
  {
    var token, read := es[j].input.access, es[j].input.read;
    if k: nat :| HoldsGood(ws, es, purge, k, j, user) {
      AccessIsExact(ws, es, purge, k, j, user, token);
    }
    if Reply(ws[j], es[j], purge) == Subject(user) {
      var k := HandedOutBefore(ws, es, purge, j, user);
    }
  }

  lemma HandedOutBefore(ws: seq<World>, es: seq<Event>, purge: bool, j: nat, user: Id) returns (k: nat)
    requires IsRun(ws, es, purge) && Unforged(ws, es, purge) && j < |es| && es[j].input.VerifyAccess?
    requires Reply(ws[j], es[j], purge) == Subject(user)
    ensures HoldsGood(ws, es, purge, k, j, user)
  {
    var token, read := es[j].input.access, es[j].input.read;
    AcceptedVerifies(ws[j].st, token, read, user);
    assert Earned(ws, es, purge, j, token);
    var i, u, t :| 0 <= i < j && HandsOut(ws[i], es[i], purge, u, t) && t.AccessToken? && t.mac == token.mac;
    SameMacSameToken(ws, es, purge, i, u, t, ws[j].st, token, read);
    AccessIsExact(ws, es, purge, i, j, u, token);
    k := i;
  }

  lemma SameKeyLater(ws: seq<World>, es: seq<Event>, purge: bool, k: nat, j: nat)
    requires IsRun(ws, es, purge) && k < j < |es|
    ensures ws[j].st.key == ws[k].st.key && es[k].now <= es[j].now
    ensures Unix(es[k].now) <= Unix(es[j].now)
  {
    RunFlows(ws, es, purge);
    Flowing(ws, es, k, j);
    Flowing(ws, es, k + 1, j);
  }

  lemma VersionLater(ws: seq<World>, es: seq<Event>, purge: bool, k: nat, j: nat, user: Id)
    requires IsRun(ws, es, purge) && k <= j < |es| && user in ws[k].st.accounts
    ensures user != "" && user in ws[j].st.accounts
    ensures ws[j].st.accounts[user].version == ws[k].st.accounts[user].version <==>
            !InvalidatedBetween(ws, es, k, j, user)
  {
    RunVersioned(ws, es, purge);
    VersionTells(ws, es, k, j, user);
    NoEmptyName(ws, es, purge, k);
  }
}
