/** How long a refresh token is good, over whole runs. */
module Refresh {
  import opened Wrappers
  import opened Types
  import opened Model
  import opened Runs
  import opened Frames
  import opened Credentials
  import opened Families
  import opened Worlds
  import opened Flow
  import opened Access

  // ---------- a family ends with reuse ----------

  function FamilyOf(st: State, token: string): Option<string> {
    if Digest(token) in st.refresh then Some(st.refresh[Digest(token)].family) else None
  }

  lemma ReuseKills(st: State, token: string, raw: string, now: Time, order: seq<Id>)
    requires OwnersExist(st) && Digest(token) in st.refresh
    requires now < st.refresh[Digest(token)].expires && st.refresh[Digest(token)].used
    ensures Dead(PlanRotate(st, token, raw, now, order).base.refresh, st.refresh[Digest(token)].family)
  {
  }

  /** Answered 401, or not at all where reuse detection panics at a peer that is not a device. */
  predicate Rejected(st: State, r: Response) {
    if PeersKnown(st) then r.Fail? && r.code == 401 else r.Crashed? || (r.Fail? && r.code == 401)
  }

  lemma DeadIsRefused(st: State, token: string, raw: string, now: Time, order: seq<Id>)
    requires OwnersExist(st) && FamilyOf(st, token).Some? && Dead(st.refresh, FamilyOf(st, token).value)
    ensures Rejected(st, PlanRotate(st, token, raw, now, order).reply)
  {
  }

  lemma DeadAfter(ws: seq<World>, es: seq<Event>, purge: bool, i: nat, j: nat, family: string, d: Digest)
    requires IsRun(ws, es, purge) && i < j <= |es|
    requires d in ws[i].st.refresh && ws[i].st.refresh[d].family == family && Dead(ws[i + 1].st.refresh, family)
    ensures Dead(ws[j].st.refresh, family)
  {
    RunNamed(ws, es, purge, i);
    RunFlows(ws, es, purge);
    Flowing(ws, es, i, i + 1);
    DeadForever(ws, es, i + 1, j, family);
  }

  lemma UnknownIsRefused(st: State, token: string, raw: string, now: Time, order: seq<Id>)
    requires OwnersExist(st) && Digest(token) !in st.refresh
    ensures Rejected(st, PlanRotate(st, token, raw, now, order).reply)
  {
  }

  /** As long as it is stored a token keeps its family, and once deleted it does not come back. */
  lemma {:induction false} TokenKeepsFamily(ws: seq<World>, es: seq<Event>, m: nat, j: nat, d: Digest)
    requires Flows(ws, es) && m <= j <= |es| && d in ws[m].st.refresh && d.of in ws[m].issued
    ensures d in ws[j].st.refresh ==> ws[j].st.refresh[d].family == ws[m].st.refresh[d].family
    decreases j
  {
    if m < j {
      TokenKeepsFamily(ws, es, m, j - 1, d);
      Flowing(ws, es, m, j - 1);
      assert Uses(ws[j - 1], es[j - 1], ws[j]);
    }
  }

  /** In any run: once a used, unexpired token is presented, no token that was of its family at any
      time is accepted again, whoever presents it, stored still or deleted. */
  lemma FamilyDiesByReuse(ws: seq<World>, es: seq<Event>, purge: bool, i: nat, m: nat, j: nat)
    requires IsRun(ws, es, purge) && i < j < |es| && m <= j
    requires Reuses(ws[i].st, es[i]) && es[j].input.Rotate?
    requires FamilyOf(ws[m].st, es[j].input.token) == FamilyOf(ws[i].st, es[i].input.token)
    ensures Rejected(ws[j].st, Reply(ws[j], es[j], purge))
  {
    var token, family := es[j].input.token, FamilyOf(ws[i].st, es[i].input.token).value;
    if Digest(token) in ws[j].st.refresh {
      SameFamilyLater(ws, es, purge, m, j, Digest(token));
      ReuseKills(ws[i].st, es[i].input.token, es[i].input.raw, es[i].now, es[i].order);
      DeadAfter(ws, es, purge, i, j, family, Digest(es[i].input.token));
      DeadIsRefused(ws[j].st, token, es[j].input.raw, es[j].now, es[j].order);
    } else {
      UnknownIsRefused(ws[j].st, token, es[j].input.raw, es[j].now, es[j].order);
    }
  }

  lemma SameFamilyLater(ws: seq<World>, es: seq<Event>, purge: bool, m: nat, j: nat, d: Digest)
    requires IsRun(ws, es, purge) && m <= j <= |es| && d in ws[m].st.refresh && d in ws[j].st.refresh
    ensures ws[j].st.refresh[d].family == ws[m].st.refresh[d].family
  {
    RunNamed(ws, es, purge, m);
    RunFlows(ws, es, purge);
    TokenKeepsFamily(ws, es, m, j, d);
  }

  // ---------- a token is good once ----------

  lemma AcceptedIsSpent(st: State, token: string, raw: string, now: Time, order: seq<Id>)
    requires OwnersExist(st) && raw != token
    ensures Digest(token) in st.refresh ==> Spent(PlanRotate(st, token, raw, now, order).base.refresh, token) ||
                                            now >= st.refresh[Digest(token)].expires
    ensures PlanRotate(st, token, raw, now, order).reply.Tokens? ==>
              Digest(token) in st.refresh && now < st.refresh[Digest(token)].expires
  {
  }

  lemma SpentIsRefused(st: State, token: string, raw: string, now: Time, order: seq<Id>)
    requires OwnersExist(st) && Spent(st.refresh, token)
    ensures Rejected(st, PlanRotate(st, token, raw, now, order).reply)
  {
  }

  lemma SpentAfter(ws: seq<World>, es: seq<Event>, purge: bool, i: nat)
    requires IsRun(ws, es, purge) && i < |es| && es[i].input.Rotate? && Reply(ws[i], es[i], purge).Tokens?
    ensures Spent(ws[i + 1].st.refresh, es[i].input.token) && es[i].input.token in ws[i + 1].issued
  {
    RunNamed(ws, es, purge, i);
    var token, raw := es[i].input.token, es[i].input.raw;
    assert raw in Draws(es[i].input);
    assert Digest(token) in ws[i].st.refresh;
    AcceptedIsSpent(ws[i].st, token, raw, es[i].now, es[i].order);
  }

  /** In any run each refresh token is accepted at most once. */
  lemma RefreshIsGoodOnce(ws: seq<World>, es: seq<Event>, purge: bool, i: nat, j: nat)
    requires IsRun(ws, es, purge) && i < j < |es|
    requires es[i].input.Rotate? && es[j].input.Rotate? && es[j].input.token == es[i].input.token
    requires Reply(ws[i], es[i], purge).Tokens?
    ensures Rejected(ws[j].st, Reply(ws[j], es[j], purge))
  {
    var token := es[i].input.token;
    SpentAfter(ws, es, purge, i);
    RunFlows(ws, es, purge);
    SpentForever(ws, es, i + 1, j, token);
    SpentIsRefused(ws[j].st, token, es[j].input.raw, es[j].now, es[j].order);
  }

  /** In every run the tokens of a family have one user, at most one of them is unused, and that one
      expires last. */
  lemma FamiliesAreSound(ws: seq<World>, es: seq<Event>, purge: bool, n: nat)
    requires IsRun(ws, es, purge) && n <= |es|
    ensures SoundFamilies(ws[n].st.refresh)
  {
    RunSound(ws, es, purge, n);
  }

  // ---------- exactly how long ----------

  /** The section answers the user with this refresh token. */
  ghost predicate HandsRefresh(w: World, e: Event, purge: bool, user: Id, raw: string) {
    && Defined(w.st, e.input) && Reply(w, e, purge).Tokens?
    && Reply(w, e, purge).refresh == raw && Recipient(Reply(w, e, purge)) == user
  }

  predicate Accepted(e: Event, r: Response, d: Digest) {
    e.input.Rotate? && Digest(e.input.token) == d && r.Tokens?
  }

  /** A stored token is marked used exactly by being accepted or by its user being invalidated, and is
      deleted only when its time is up. */
  ghost predicate TokenMove(st: State, e: Event, r: map<Digest, RefreshRec>, reply: Response) {
    forall d :: d in st.refresh ==>
      if d in r then
        r[d] == st.refresh[d].(
          used := st.refresh[d].used || Accepted(e, reply, d) || Invalidates(st, e, st.refresh[d].user))
      else st.refresh[d].expires <= e.now
  }

  // ---------- section by section ----------

  lemma ArriveTokens(st: State, e: Event, purge: bool)
    requires e.input.Arrive?
    ensures TokenMove(st, e, Plan(st, e, purge).base.refresh, Plan(st, e, purge).reply)
  {
  }

  lemma IssueTokens(st: State, e: Event, base: State, user: Id, family: string, raw: string, reply: Response)
    requires Digest(raw) !in st.refresh && TokenMove(st, e, base.refresh, reply)
    ensures TokenMove(st, e, Issue(base, user, family, raw, e.now).refresh, reply)
  {
  }

  lemma RegisterTokens(st: State, e: Event, purge: bool)
    requires e.input.Register? && Digest(e.input.raw) !in st.refresh
    ensures TokenMove(st, e, Plan(st, e, purge).base.refresh, Plan(st, e, purge).reply)
  {
    var i := e.input;
    IssueTokens(st, e, st, i.newId, i.family, i.raw, Plan(st, e, purge).reply);
  }

  lemma LoginTokens(st: State, e: Event, purge: bool)
    requires e.input.Login? && Digest(e.input.raw) !in st.refresh
    ensures TokenMove(st, e, Plan(st, e, purge).base.refresh, Plan(st, e, purge).reply)
  {
    var account := AccountFor(st, e.input.email, e.input.password);
    if account.Some? {
      IssueTokens(st, e, st, account.value, e.input.family, e.input.raw, Plan(st, e, purge).reply);
    }
  }

  /** Reuse marks the family and then all of the user's tokens, which include it. */
  lemma ReuseTokens(st: State, e: Event, reply: Response)
    requires Reuses(st, e) && SoundFamilies(st.refresh) && !reply.Tokens?
    ensures var t := st.refresh[Digest(e.input.token)];
            TokenMove(st, e, UseAllOf(UseFamily(st.refresh, t.family), t.user), reply)
  {
  }

  lemma AcceptTokens(st: State, e: Event, reply: Response)
    requires e.input.Rotate? && Digest(e.input.token) in st.refresh && !Reuses(st, e) && reply.Tokens?
    ensures var d := Digest(e.input.token);
            TokenMove(st, e, st.refresh[d := st.refresh[d].(used := true)], reply)
  {
  }

  lemma RotateTokens(st: State, e: Event, purge: bool)
    requires e.input.Rotate? && OwnersExist(st) && SoundFamilies(st.refresh) && Digest(e.input.raw) !in st.refresh
    ensures TokenMove(st, e, Plan(st, e, purge).base.refresh, Plan(st, e, purge).reply)
  {
    var d, reply := Digest(e.input.token), Plan(st, e, purge).reply;
    if Reuses(st, e) {
      ReuseTokens(st, e, reply);
    } else if d in st.refresh && e.now < st.refresh[d].expires {
      var t := st.refresh[d];
      AcceptTokens(st, e, reply);
      IssueTokens(st, e, st.(refresh := st.refresh[d := t.(used := true)]), t.user, t.family, e.input.raw, reply);
    }
  }

  lemma LogoutTokens(st: State, e: Event, purge: bool)
    requires e.input.Logout? && Defined(st, e.input)
    ensures TokenMove(st, e, Plan(st, e, purge).base.refresh, Plan(st, e, purge).reply)
  {
  }

  lemma OtherTokens(st: State, e: Event, purge: bool)
    requires Defined(st, e.input) && !WritesTokens(e.input)
    ensures TokenMove(st, e, Plan(st, e, purge).base.refresh, Plan(st, e, purge).reply)
  {
    PlanFramed(st, e, purge);
  }

  lemma PlanTokens(st: State, e: Event, purge: bool)
    requires Defined(st, e.input) && OwnersExist(st) && SoundFamilies(st.refresh)
    requires forall y :: y in Draws(e.input) ==> Digest(y) !in st.refresh
    ensures TokenMove(st, e, Plan(st, e, purge).base.refresh, Plan(st, e, purge).reply)
  {
    match e.input
    case Arrive(_, _) => ArriveTokens(st, e, purge);
    case Register(_, _, _, _, _, _, raw) => RegisterTokens(st, e, purge);
    case Login(_, _, _, raw) => LoginTokens(st, e, purge);
    case Rotate(_, raw) => RotateTokens(st, e, purge);
    case Logout(_) => LogoutTokens(st, e, purge);
    case _ => OtherTokens(st, e, purge);
  }

  /** What the section answers with is stored, unused, for the recipient, for seven days. */
  predicate StoresAnswer(o: Outcome, draws: seq<string>, now: Time) {
    o.reply.Tokens? ==>
      && o.reply.refresh in draws && Digest(o.reply.refresh) in o.base.refresh
      && var t := o.base.refresh[Digest(o.reply.refresh)];
         t.user == Recipient(o.reply) && t.expires == now + REFRESH_LIFETIME && !t.used
  }

  lemma RegisterStores(st: State, ok: bool, email: string, name: string, password: string,
                       id: Id, family: string, raw: string, now: Time)
    ensures StoresAnswer(PlanRegister(st, ok, email, name, password, id, family, raw, now), [id, family, raw], now)
  {
  }

  lemma LoginStores(st: State, email: string, password: string, family: string, raw: string, now: Time)
    ensures StoresAnswer(PlanLogin(st, email, password, family, raw, now), [family, raw], now)
  {
  }

  lemma RotateStores(st: State, token: string, raw: string, now: Time, order: seq<Id>)
    requires OwnersExist(st)
    ensures StoresAnswer(PlanRotate(st, token, raw, now, order), [raw], now)
  {
  }

  lemma PlanStores(st: State, e: Event, purge: bool)
    requires Defined(st, e.input)
    ensures StoresAnswer(Plan(st, e, purge), Draws(e.input), e.now)
  {
    match e.input
    case Register(ok, email, name, password, id, family, raw) =>
      RegisterStores(st, ok, email, name, password, id, family, raw, e.now);
    case Login(email, password, family, raw) => LoginStores(st, email, password, family, raw, e.now);
    case Rotate(token, raw) => RotateStores(st, token, raw, e.now, e.order);
    case _ => PlanFramed(st, e, purge);
  }

  // ---------- over a run ----------

  /** What happens to stored tokens in one event; drawn names come into use once. */
  ghost predicate Tracks(w: World, e: Event, w': World, purge: bool) {
    && Defined(w.st, e.input)
    && TokenMove(w.st, e, w'.st.refresh, Reply(w, e, purge))
    && (forall d :: d in w'.st.refresh && d !in w.st.refresh ==> d.of !in w.issued)
    && w.issued <= w'.issued && w.clock <= e.now == w'.clock
  }

  ghost predicate Tracked(ws: seq<World>, es: seq<Event>, purge: bool) {
    |ws| == |es| + 1 && forall n :: 0 <= n < |es| ==> Tracks(ws[n], es[n], ws[n + 1], purge)
  }

  lemma StepTracks(w: World, e: Event, purge: bool)
    requires Named(w) && Enabled(w, e) && OwnersExist(w.st) && SoundFamilies(w.st.refresh)
    requires Defined(w.st, e.input)
    ensures Tracks(w, e, Step(w, e, purge), purge)
  {
    DrawsAreNew(w, e);
    PlanTokens(w.st, e, purge);
    PlanIsTrusty(w.st, e, purge);
  }

  lemma TokensAreSound(ws: seq<World>, es: seq<Event>, purge: bool, n: nat)
    requires IsRun(ws, es, purge) && n <= |es|
    ensures Named(ws[n]) && OwnersExist(ws[n].st) && SoundFamilies(ws[n].st.refresh)
  {
    RunSound(ws, es, purge, n);
  }

  lemma RunTracked(ws: seq<World>, es: seq<Event>, purge: bool)
    requires IsRun(ws, es, purge)
    ensures Tracked(ws, es, purge)
  {
    forall n | 0 <= n < |es| ensures Tracks(ws[n], es[n], ws[n + 1], purge) {
      TokensAreSound(ws, es, purge, n);
      StepTracks(ws[n], es[n], purge);
    }
  }

  ghost predicate AcceptedBetween(ws: seq<World>, es: seq<Event>, purge: bool, k: nat, j: nat, raw: string)
    requires k <= j <= |es| < |ws|
  {
    exists i :: k <= i < j && Defined(ws[i].st, es[i].input) && Accepted(es[i], Reply(ws[i], es[i], purge), Digest(raw))
  }

  /** The token is stored with its user and deadline, used or not, or its time is up. */
  predicate Holds(w: World, raw: string, user: Id, expires: Time, used: bool) {
    if Digest(raw) in w.st.refresh then
      var t := w.st.refresh[Digest(raw)];
      t.user == user && t.expires == expires && t.used == used
    else expires <= w.clock
  }

  lemma {:induction false} HoldsOn(ws: seq<World>, es: seq<Event>, purge: bool, k: nat, j: nat, raw: string,
                                   user: Id, expires: Time)
    requires Tracked(ws, es, purge) && k <= j <= |es| && raw in ws[k].issued
    requires Holds(ws[k], raw, user, expires, false)
    ensures Holds(ws[j], raw, user, expires,
                  AcceptedBetween(ws, es, purge, k, j, raw) || InvalidatedBetween(ws, es, k, j, user))
    ensures raw in ws[j].issued
    decreases j
  {
    if k < j {
      var n := j - 1;
      HoldsOn(ws, es, purge, k, n, raw, user, expires);
      assert Tracks(ws[n], es[n], ws[j], purge);
      OneMoreEvent(ws, es, purge, k, n, raw, user);
      HoldsStep(ws[n], es[n], ws[j], purge, raw, user, expires,
                AcceptedBetween(ws, es, purge, k, n, raw) || InvalidatedBetween(ws, es, k, n, user));
    }
  }

  lemma OneMoreEvent(ws: seq<World>, es: seq<Event>, purge: bool, k: nat, n: nat, raw: string, user: Id)
    requires k <= n < |es| < |ws| && Defined(ws[n].st, es[n].input)
    ensures AcceptedBetween(ws, es, purge, k, n + 1, raw) <==>
            AcceptedBetween(ws, es, purge, k, n, raw) || Accepted(es[n], Reply(ws[n], es[n], purge), Digest(raw))
    ensures InvalidatedBetween(ws, es, k, n + 1, user) <==>
            InvalidatedBetween(ws, es, k, n, user) || Invalidates(ws[n].st, es[n], user)
  {
  }

  lemma HoldsStep(w: World, e: Event, w': World, purge: bool, raw: string, user: Id, expires: Time, used: bool)
    requires Tracks(w, e, w', purge) && raw in w.issued && Holds(w, raw, user, expires, used)
    ensures Holds(w', raw, user, expires,
                  used || Accepted(e, Reply(w, e, purge), Digest(raw)) || Invalidates(w.st, e, user))
    ensures raw in w'.issued
  {
  }

  lemma HandedIsHeld(ws: seq<World>, es: seq<Event>, purge: bool, k: nat, user: Id, raw: string)
    requires IsRun(ws, es, purge) && k < |es| && HandsRefresh(ws[k], es[k], purge, user, raw)
    ensures Holds(ws[k + 1], raw, user, es[k].now + REFRESH_LIFETIME, false) && raw in ws[k + 1].issued
  {
    PlanStores(ws[k].st, es[k], purge);
  }

  lemma HeldIsAnswered(w: World, token: string, raw: string, now: Time, order: seq<Id>, user: Id, expires: Time,
                       used: bool)
    requires OwnersExist(w.st) && Holds(w, token, user, expires, used) && w.clock <= now
    ensures var r := PlanRotate(w.st, token, raw, now, order).reply;
            if now < expires && !used then r.Tokens? && r.refresh == raw && Recipient(r) == user
            else Rejected(w.st, r)
  {
  }

  /** In any run a refresh token is accepted, and a new one handed to the same user, exactly in the
      seven days after it was handed out, if it was not accepted before and its user was not
      invalidated since (which a reuse in its family is). */
  lemma RefreshIsExact(ws: seq<World>, es: seq<Event>, purge: bool, k: nat, j: nat, user: Id, raw: string)
    requires IsRun(ws, es, purge) && k < j < |es| && HandsRefresh(ws[k], es[k], purge, user, raw)
    requires es[j].input.Rotate? && es[j].input.token == raw
    ensures if && es[j].now < es[k].now + REFRESH_LIFETIME
               && !AcceptedBetween(ws, es, purge, k + 1, j, raw) && !InvalidatedBetween(ws, es, k + 1, j, user)
            then HandsRefresh(ws[j], es[j], purge, user, es[j].input.raw)
            else Rejected(ws[j].st, Reply(ws[j], es[j], purge))
  {
    HandedIsHeld(ws, es, purge, k, user, raw);
    RunTracked(ws, es, purge);
    HoldsOn(ws, es, purge, k + 1, j, raw, user, es[k].now + REFRESH_LIFETIME);
    HeldIsAnswered(ws[j], raw, es[j].input.raw, es[j].now, es[j].order, user, es[k].now + REFRESH_LIFETIME,
                   AcceptedBetween(ws, es, purge, k + 1, j, raw) || InvalidatedBetween(ws, es, k + 1, j, user));
  }

  /** A reuse in a token's family invalidates the token's user. */
  lemma ReuseInvalidates(ws: seq<World>, es: seq<Event>, purge: bool, n: nat, d: Digest)
    requires IsRun(ws, es, purge) && n < |es| && Reuses(ws[n].st, es[n]) && d in ws[n].st.refresh
    requires Some(ws[n].st.refresh[d].family) == FamilyOf(ws[n].st, es[n].input.token)
    ensures Invalidates(ws[n].st, es[n], ws[n].st.refresh[d].user)
  {
    TokensAreSound(ws, es, purge, n);
  }
}
