/** What any section can do to accounts, refresh tokens and challenges. */
module Credentials {
  import opened Wrappers
  import opened Types
  import opened Model
  import opened Runs
  import opened Frames
  import opened Plans

  // ---------- accounts ----------

  /** Accounts stay and their versions never go back; a new one has a fresh name. */
  ghost predicate AccountsMove(a: map<Id, AccountRec>, a': map<Id, AccountRec>, x: Context) {
    && (forall u :: u in a ==> u in a' && a[u].version <= a'[u].version)
    && (forall u :: u in a' && u !in a ==> u in x.draws)
  }

  // ---------- refresh tokens ----------

  /** A stored token keeps its user, family and deadline and is never un-used. */
  predicate SameToken(t: RefreshRec, t': RefreshRec) {
    t'.user == t.user && t'.family == t.family && t'.expires == t.expires && (t.used ==> t'.used)
  }

  /** A new token is unused, lives the full lifetime, belongs to an account, and either starts a
      fresh family or succeeds an unused token of its family that this very section used up. */
  ghost predicate NewToken(r: map<Digest, RefreshRec>, r': map<Digest, RefreshRec>, a': map<Id, AccountRec>,
                           x: Context, d: Digest, t: RefreshRec) {
    && d.of in x.draws && !t.used && t.expires == x.now + REFRESH_LIFETIME && t.user in a'
    && (t.family in x.draws ||
        exists d0 :: d0 in r && d0 in r' && Succeeds(r[d0], r'[d0], t))
  }

  predicate Succeeds(t0: RefreshRec, t0': RefreshRec, t: RefreshRec) {
    !t0.used && t0'.used && t.family == t0.family && t.user == t0.user
  }

  ghost predicate RefreshMove(r: map<Digest, RefreshRec>, r': map<Digest, RefreshRec>, a': map<Id, AccountRec>,
                              x: Context) {
    && (forall d :: d in r && d in r' ==> SameToken(r[d], r'[d]))
    && (forall d :: d in r' && d !in r ==> NewToken(r, r', a', x, d, r'[d]))
    && (forall d, d' :: d in r' && d' in r' && d !in r && d' !in r ==> d == d')
  }

  // ---------- challenges ----------

  /** A challenge stays as it is or goes; a new one is the one asked for, good for a minute. */
  ghost predicate ChallengesMove(c: map<string, Challenge>, c': map<string, Challenge>, x: Context) {
    forall n :: n in c' ==>
      || (n in c && c'[n] == c[n])
      || (x.draws == [n] && x.challenger == Some(c'[n].user) && c'[n].expires == x.now + CHALLENGE_LIFETIME)
  }

  ghost predicate Trusty(st: State, o: Outcome, x: Context) {
    && AccountsMove(st.accounts, o.base.accounts, x)
    && RefreshMove(st.refresh, o.base.refresh, o.base.accounts, x)
    && ChallengesMove(st.challenges, o.base.challenges, x)
  }

  // ---------- section by section ----------

  lemma ArriveIsTrusty(st: State, host: string, authPath: bool, x: Context, purge: bool)
    ensures Trusty(st, PlanArrive(st, host, authPath, x.now, x.order, purge), x)
  {
  }

  lemma IssueIsTrusty(st: State, base: State, user: Id, family: string, raw: string, x: Context)
    requires AccountsMove(st.accounts, base.accounts, x) && user in base.accounts
    requires base.challenges == st.challenges
    requires forall d :: d in base.refresh <==> d in st.refresh
    requires forall d :: d in st.refresh ==> SameToken(st.refresh[d], base.refresh[d])
    requires Digest(raw) !in st.refresh && raw in x.draws
    requires family in x.draws ||
             exists d0 :: d0 in st.refresh &&
               Succeeds(st.refresh[d0], base.refresh[d0], RefreshRec(user, family, 0, false))
    ensures var base' := Issue(base, user, family, raw, x.now);
            && AccountsMove(st.accounts, base'.accounts, x)
            && RefreshMove(st.refresh, base'.refresh, base'.accounts, x)
            && ChallengesMove(st.challenges, base'.challenges, x)
  {
    var r' := Issue(base, user, family, raw, x.now).refresh;
    if family !in x.draws {
      var d0 :| d0 in st.refresh && Succeeds(st.refresh[d0], base.refresh[d0], RefreshRec(user, family, 0, false));
      assert d0 in r' && Succeeds(st.refresh[d0], r'[d0], r'[Digest(raw)]);
    }
  }

  lemma RegisterIsTrusty(st: State, ok: bool, email: string, name: string, password: string,
                         id: Id, family: string, raw: string, x: Context)
    requires x.draws == [id, family, raw] && Digest(raw) !in st.refresh && id !in st.accounts
    ensures Trusty(st, PlanRegister(st, ok, email, name, password, id, family, raw, x.now), x)
  {
    var base := st.(accounts := st.accounts[id := AccountRec(id, email, name, PasswordHash(password), 0)],
                    emails := st.emails[email := id]);
    IssueIsTrusty(st, base, id, family, raw, x);
  }

  lemma LoginIsTrusty(st: State, email: string, password: string, family: string, raw: string, x: Context)
    requires x.draws == [family, raw] && Digest(raw) !in st.refresh
    ensures Trusty(st, PlanLogin(st, email, password, family, raw, x.now), x)
  {
    var account := AccountFor(st, email, password);
    if account.Some? {
      IssueIsTrusty(st, st, account.value, family, raw, x);
    }
  }

  lemma InvalidateIsTrusty(st: State, refresh: map<Digest, RefreshRec>, user: Id, x: Context)
    requires user in st.accounts && refresh.Keys == st.refresh.Keys
    requires forall d :: d in st.refresh ==> SameToken(st.refresh[d], refresh[d])
    ensures var base := Invalidate(st.(refresh := refresh), user);
            && AccountsMove(st.accounts, base.accounts, x)
            && RefreshMove(st.refresh, base.refresh, base.accounts, x)
            && base.challenges == st.challenges
  {
  }

  lemma RotateIsTrusty(st: State, token: string, raw: string, x: Context)
    requires OwnersExist(st) && x.draws == [raw] && Digest(raw) !in st.refresh
    ensures Trusty(st, PlanRotate(st, token, raw, x.now, x.order), x)
  {
    var d := Digest(token);
    if d in st.refresh && x.now < st.refresh[d].expires {
      var t := st.refresh[d];
      if t.used {
        InvalidateIsTrusty(st, UseFamily(st.refresh, t.family), t.user, x);
      } else {
        var base := st.(refresh := st.refresh[d := t.(used := true)]);
        assert Succeeds(st.refresh[d], base.refresh[d], RefreshRec(t.user, t.family, 0, false));
        IssueIsTrusty(st, base, t.user, t.family, raw, x);
      }
    }
  }

  lemma LogoutIsTrusty(st: State, user: Id, x: Context)
    requires user in st.accounts
    ensures Trusty(st, PlanLogout(st, user, x.now, x.order), x)
  {
    InvalidateIsTrusty(st, st.refresh, user, x);
  }

  /** The other sections leave accounts and tokens alone and at most spend or add a challenge. */
  predicate LeavesAccounts(st: State, o: Outcome) {
    o.base.accounts == st.accounts && o.base.emails == st.emails && o.base.refresh == st.refresh
  }

  lemma SpendIsTrusty(st: State, o: Outcome, x: Context)
    requires LeavesAccounts(st, o)
    requires o.base.challenges == st.challenges || exists n :: o.base.challenges == st.challenges - {n}
    ensures Trusty(st, o, x)
  {
  }

  lemma NewChallengeIsTrusty(st: State, user: Id, nonce: string, x: Context)
    requires x.draws == [nonce] && x.challenger == Some(user)
    ensures Trusty(st, PlanNewChallenge(st, user, nonce, x.now), x)
  {
  }

  predicate OfCredentials(i: Input) {
    WritesTokens(i) || i.NewChallenge?
  }

  lemma OthersAreTrusty(st: State, e: Event, purge: bool)
    requires Defined(st, e.input) && !OfCredentials(e.input)
    ensures Trusty(st, Plan(st, e, purge), ContextOf(e))
  {
    PlanFramed(st, e, purge);
    SpendIsTrusty(st, Plan(st, e, purge), ContextOf(e));
  }

  lemma PlanIsTrusty(st: State, e: Event, purge: bool)
    requires Defined(st, e.input)
    requires forall y :: y in Draws(e.input) ==> Digest(y) !in st.refresh && y !in st.accounts
    ensures Trusty(st, Plan(st, e, purge), ContextOf(e))
  {
    var x := ContextOf(e);
    match e.input
    case Arrive(host, authPath) => ArriveIsTrusty(st, host, authPath, x, purge);
    case Register(ok, email, name, password, id, family, raw) =>
      RegisterIsTrusty(st, ok, email, name, password, id, family, raw, x);
    case Login(email, password, family, raw) => LoginIsTrusty(st, email, password, family, raw, x);
    case Rotate(token, raw) => RotateIsTrusty(st, token, raw, x);
    case Logout(user) => LogoutIsTrusty(st, user, x);
    case NewChallenge(user, nonce) => NewChallengeIsTrusty(st, user, nonce, x);
    case _ => OthersAreTrusty(st, e, purge);
  }

}
