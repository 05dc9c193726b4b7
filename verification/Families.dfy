/** Refresh-token families: rotation with reuse detection, the idea of section 10.4 of RFC 6749. */
module Families {
  import opened Types
  import opened Plans
  import opened Credentials

  /** One user per family, at most one unused token, and that one expires last. */
  ghost predicate SoundFamilies(r: map<Digest, RefreshRec>) {
    forall a, b :: a in r && b in r && r[a].family == r[b].family ==>
      && r[a].user == r[b].user
      && (!r[a].used && !r[b].used ==> a == b)
      && (!r[a].used ==> r[a].expires >= r[b].expires)
  }

  ghost predicate WithinLifetime(r: map<Digest, RefreshRec>, clock: Time) {
    forall d :: d in r ==> r[d].expires <= clock + REFRESH_LIFETIME
  }

  /** Every token and family name has been drawn before. */
  ghost predicate Drawn(r: map<Digest, RefreshRec>, issued: set<string>) {
    forall d :: d in r ==> d.of in issued && r[d].family in issued
  }

  predicate Fresh(x: Context, issued: set<string>) {
    forall y :: y in x.draws ==> y !in issued
  }

  lemma FamiliesKept(r: map<Digest, RefreshRec>, r': map<Digest, RefreshRec>, a': map<Id, AccountRec>,
                     x: Context, clock: Time, issued: set<string>)
    requires RefreshMove(r, r', a', x) && SoundFamilies(r) && WithinLifetime(r, clock) && x.now >= clock
    requires Drawn(r, issued) && Fresh(x, issued)
    ensures SoundFamilies(r') && WithinLifetime(r', x.now)
  {
    forall a, b | a in r' && b in r' && r'[a].family == r'[b].family
      ensures r'[a].user == r'[b].user
      ensures !r'[a].used && !r'[b].used ==> a == b
      ensures !r'[a].used ==> r'[a].expires >= r'[b].expires
    {
      if a !in r && b in r {
        Successor(r, r', a', x, clock, issued, a, b);
      } else if b !in r && a in r {
        Successor(r, r', a', x, clock, issued, b, a);
      }
    }
  }

  /** A new token d and an older one b of its family. */
  lemma Successor(r: map<Digest, RefreshRec>, r': map<Digest, RefreshRec>, a': map<Id, AccountRec>,
                  x: Context, clock: Time, issued: set<string>, d: Digest, b: Digest)
    requires RefreshMove(r, r', a', x) && SoundFamilies(r) && WithinLifetime(r, clock) && x.now >= clock
    requires Drawn(r, issued) && Fresh(x, issued)
    requires d in r' && d !in r && b in r && b in r' && r'[d].family == r'[b].family
    ensures r'[d].user == r'[b].user && r'[b].used && r'[d].expires >= r'[b].expires
  {
    var d0 :| d0 in r && d0 in r' && Succeeds(r[d0], r'[d0], r'[d]);
    assert r[d0].family == r[b].family;
  }

  lemma DrawnKept(r: map<Digest, RefreshRec>, r': map<Digest, RefreshRec>, a': map<Id, AccountRec>,
                  x: Context, issued: set<string>)
    requires RefreshMove(r, r', a', x) && Drawn(r, issued)
    ensures Drawn(r', issued + set y | y in x.draws)
  {
  }

  /** No token of the family can be rotated. */
  ghost predicate Dead(r: map<Digest, RefreshRec>, family: string) {
    forall d :: d in r && r[d].family == family ==> r[d].used
  }

  lemma DeadStaysDead(r: map<Digest, RefreshRec>, r': map<Digest, RefreshRec>, a': map<Id, AccountRec>,
                      x: Context, issued: set<string>, family: string)
    requires RefreshMove(r, r', a', x) && Dead(r, family) && family in issued && Fresh(x, issued)
    ensures Dead(r', family)
  {
  }

  /** A token that cannot be rotated any more: used up, or not stored. */
  predicate Spent(r: map<Digest, RefreshRec>, raw: string) {
    Digest(raw) in r ==> r[Digest(raw)].used
  }

  lemma SpentStaysSpent(r: map<Digest, RefreshRec>, r': map<Digest, RefreshRec>, a': map<Id, AccountRec>,
                        x: Context, issued: set<string>, raw: string)
    requires RefreshMove(r, r', a', x) && Spent(r, raw) && raw in issued && Fresh(x, issued)
    ensures Spent(r', raw)
  {
  }
}
