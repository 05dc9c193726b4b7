/** Exactly which device proofs pass, over whole runs. */
module Proofs {
  import opened Wrappers
  import opened Types
  import opened Keys
  import opened Token
  import opened Model
  import opened Runs
  import opened Frames
  import opened Worlds
  import opened Authority

  /** The key text that a section checks its proof against. */
  function KeyIn(st: State, e: Event): Option<string> {
    var i := e.input;
    if i.RegisterDevice? then Some(i.key)
    else if i.RequestSession? && i.source in st.devices then Some(st.devices[i.source].key)
    else if (i.Decide? || i.ChangePermissions? || i.HandControl?) && i.id in st.sessions
            && st.sessions[i.id].target in st.devices
    then Some(st.devices[st.sessions[i.id].target].key)
    else None
  }

  /** The signature is the one made with that key over the request's method, path and nonce. */
  predicate IsSigned(st: State, e: Event)
    requires Proves(e.input)
  {
    var p, key := e.input.proof, KeyIn(st, e);
    && key.Some? && KeyOf(key.value).Some?
    && p.signature == Signed(KeyOf(key.value).value, "MuiltDesk/v1\n" + p.method_ + "\n" + p.path + "\n" + p.nonce)
  }

  /** A proof under the nonce was checked, good or bad, by an event from i on. */
  predicate SpentBetween(ws: seq<World>, es: seq<Event>, i: nat, n: nat, nonce: string)
    requires n <= |es| < |ws|
  {
    exists m: nat :: i <= m < n && Checked(ws[m].st, es[m]).Some? && Checked(ws[m].st, es[m]).value.nonce == nonce
  }

  /** The user asked for the nonce less than a minute ago, and no proof under it was checked since. */
  predicate Stands(ws: seq<World>, es: seq<Event>, k: nat, n: nat, user: Id, nonce: string)
    requires n < |es| < |ws|
  {
    && k < n && es[k].input == NewChallenge(user, nonce) && es[n].now < es[k].now + 60 * SECOND
    && !SpentBetween(ws, es, k + 1, n, nonce)
  }

  // ---------- section by section ----------

  lemma UncheckedKeeps(st: State, e: Event, purge: bool)
    requires Defined(st, e.input) && Proves(e.input) && Checked(st, e).None?
    ensures Plan(st, e, purge).base.challenges == st.challenges
  {
  }

  /** A challenge stays as it is until a proof under it is checked or its time is up. */
  lemma ChallengeMove(st: State, e: Event, purge: bool, nonce: string)
    requires Defined(st, e.input) && nonce in st.challenges
    requires e.input.NewChallenge? ==> e.input.nonce != nonce
    ensures var c := Plan(st, e, purge).base.challenges;
            || (nonce in c && c[nonce] == st.challenges[nonce])
            || (Checked(st, e).Some? && Checked(st, e).value.nonce == nonce)
            || st.challenges[nonce].expires <= e.now
  {
    PlanFramed(st, e, purge);
    if Proves(e.input) && Checked(st, e).None? {
      UncheckedKeeps(st, e, purge);
    }
  }

  lemma PassesIfStored(st: State, e: Event)
    requires Checked(st, e).Some? && Proves(e.input)
    ensures Passes(st, e) <==>
            && IsSigned(st, e) && e.input.proof.nonce in st.challenges
            && st.challenges[e.input.proof.nonce].user == e.input.user
            && e.now < st.challenges[e.input.proof.nonce].expires
  {
    var p := e.input.proof;
    assert DeviceMessage(p.method_, p.path, p.nonce) ==
           "MuiltDesk/v1\n" + p.method_ + "\n" + p.path + "\n" + p.nonce;
  }

  // ---------- over a run ----------

  /** What is left of a challenge: it is stored, or was spent, or its minute is over. */
  predicate Remains(w: World, nonce: string, c: Challenge, spent: bool) {
    || (nonce in w.st.challenges && w.st.challenges[nonce] == c)
    || spent || c.expires <= w.clock
  }

  lemma RemainsKept(w: World, e: Event, purge: bool, nonce: string, c: Challenge, spent: bool)
    requires Enabled(w, e) && Defined(w.st, e.input) && nonce in w.issued && Remains(w, nonce, c, spent)
    ensures Remains(Step(w, e, purge), nonce, c,
                    spent || (Checked(w.st, e).Some? && Checked(w.st, e).value.nonce == nonce))
  {
    if nonce in w.st.challenges {
      assert e.input.NewChallenge? ==> e.input.nonce in Draws(e.input);
      ChallengeMove(w.st, e, purge, nonce);
    }
  }

  lemma {:induction false} ChallengeRemains(ws: seq<World>, es: seq<Event>, purge: bool, k: nat, n: nat, user: Id,
                                            nonce: string)
    requires IsRun(ws, es, purge) && k < n <= |es| && es[k].input == NewChallenge(user, nonce)
    ensures nonce in ws[n].issued
    ensures Remains(ws[n], nonce, Challenge(user, es[k].now + CHALLENGE_LIFETIME),
                    SpentBetween(ws, es, k + 1, n, nonce))
    decreases n
  {
    if k + 1 == n {
      assert nonce in Draws(es[k].input);
    } else {
      var m := n - 1;
      ChallengeRemains(ws, es, purge, k, m, user, nonce);
      RemainsKept(ws[m], es[m], purge, nonce, Challenge(user, es[k].now + CHALLENGE_LIFETIME),
                  SpentBetween(ws, es, k + 1, m, nonce));
      OneMoreCheck(ws, es, k + 1, m, nonce);
    }
  }

  lemma OneMoreCheck(ws: seq<World>, es: seq<Event>, i: nat, m: nat, nonce: string)
    requires i <= m < |es| < |ws|
    ensures SpentBetween(ws, es, i, m + 1, nonce) <==>
            SpentBetween(ws, es, i, m, nonce)
            || (Checked(ws[m].st, es[m]).Some? && Checked(ws[m].st, es[m]).value.nonce == nonce)
  {
  }

  lemma StandingIsStored(ws: seq<World>, es: seq<Event>, purge: bool, k: nat, n: nat, user: Id, nonce: string)
    requires IsRun(ws, es, purge) && n < |es| && Stands(ws, es, k, n, user, nonce)
    ensures nonce in ws[n].st.challenges
    ensures ws[n].st.challenges[nonce] == Challenge(user, es[k].now + CHALLENGE_LIFETIME)
  {
    ChallengeRemains(ws, es, purge, k, n, user, nonce);
  }

  lemma PassingStands(ws: seq<World>, es: seq<Event>, purge: bool, n: nat) returns (k: nat)
    requires IsRun(ws, es, purge) && n < |es| && Checked(ws[n].st, es[n]).Some? && Passes(ws[n].st, es[n])
    requires Proves(es[n].input)
    ensures Stands(ws, es, k, n, es[n].input.user, es[n].input.proof.nonce)
  {
    var user, nonce := es[n].input.user, es[n].input.proof.nonce;
    PassingWasAskedFor(ws, es, purge, n);
    k :| 0 <= k < n && es[k].now <= es[n].now < es[k].now + CHALLENGE_LIFETIME
         && es[k].input == NewChallenge(user, nonce);
    PassesIfStored(ws[n].st, es[n]);
    if m: nat :| k + 1 <= m < n && Checked(ws[m].st, es[m]).Some? && Checked(ws[m].st, es[m]).value.nonce == nonce {
      ChallengeRemains(ws, es, purge, k, m, user, nonce);
      SpentByCheck(ws, es, purge, m, nonce);
      StaysSpent(ws, es, purge, m, n, nonce);
      assert false;
    }
  }

  /** In any run: a device proof that is checked passes exactly if its user asked for the challenge less than
      a minute before, no proof under it was checked since, and the signature is made with the very key over
      method, path and nonce. */
  lemma ProofIsExact(ws: seq<World>, es: seq<Event>, purge: bool, n: nat)
    requires IsRun(ws, es, purge) && n < |es| && Checked(ws[n].st, es[n]).Some? && Proves(es[n].input)
    ensures Passes(ws[n].st, es[n]) <==>
            && IsSigned(ws[n].st, es[n])
            && exists k: nat :: Stands(ws, es, k, n, es[n].input.user, es[n].input.proof.nonce)
  {
    var user, nonce := es[n].input.user, es[n].input.proof.nonce;
    PassesIfStored(ws[n].st, es[n]);
    if k: nat :| Stands(ws, es, k, n, user, nonce) {
      StandingIsStored(ws, es, purge, k, n, user, nonce);
    }
    if Passes(ws[n].st, es[n]) {
      var k := PassingStands(ws, es, purge, n);
    }
  }

  /** In any run: whoever asks gets the nonce drawn for it, good for a minute, and nothing else changes. */
  lemma ChallengeIsExact(ws: seq<World>, es: seq<Event>, purge: bool, n: nat)
    requires IsRun(ws, es, purge) && n < |es| && es[n].input.NewChallenge?
    ensures var st, i := ws[n].st, es[n].input;
            && Reply(ws[n], es[n], purge) == NonceOut(i.nonce)
            && ws[n + 1].st == st.(challenges := st.challenges[i.nonce := Challenge(i.user, es[n].now + 60 * SECOND)])
            && i.nonce !in st.challenges
  {
    RunNamed(ws, es, purge, n);
    assert es[n].input.nonce in Draws(es[n].input);
    assert ws[n].st.history + [] + [] == ws[n].st.history;
  }
}
