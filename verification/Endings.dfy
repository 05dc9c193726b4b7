/** The loop that ends sessions, on values: what it has done once it has met some of them. */
module Endings {
  import opened Types
  import opened Permissions
  import opened Model

  /** What the loop changes. */
  datatype Books = Books(sessions: map<Id, SessionRec>, history: seq<Audit>)

  function FinishIf(hits: bool, v: SessionRec, final: SessionState): SessionRec {
    if hits then Finish(v, final) else v
  }

  function FinishAt(b: Books, known: map<Id, DeviceRec>, which: Which, id: Id, final: SessionState, actor: Id,
                    now: Time): Books {
    if id in b.sessions && Hit(known, which, b.sessions[id]) then
      Books(b.sessions[id := Finish(b.sessions[id], final)],
            b.history + [Audit(actor, SessionEvent(Ended(final)), id, now)])
    else b
  }

  /** Once it has met the first n of the order. */
  function FinishFirst(b: Books, known: map<Id, DeviceRec>, which: Which, order: seq<Id>, n: nat, final: SessionState,
                       actor: Id, now: Time): Books
    requires n <= |order|
  {
    if n == 0 then b
    else FinishAt(FinishFirst(b, known, which, order, n - 1, final, actor, now), known, which, order[n - 1], final,
                  actor, now)
  }

  lemma {:induction false} FirstFinished(b: Books, known: map<Id, DeviceRec>, which: Which, order: seq<Id>, n: nat,
                                         final: SessionState, actor: Id, now: Time, id: Id)
    requires n <= |order| && NoDuplicates(order)
    ensures var after := FinishFirst(b, known, which, order, n, final, actor, now).sessions;
            && (id in after <==> id in b.sessions)
            && (id in after ==>
                  after[id] == FinishIf(id in order[..n] && Hit(known, which, b.sessions[id]), b.sessions[id], final))
  {
    if n > 0 {
      FirstFinished(b, known, which, order, n - 1, final, actor, now, id);
      assert order[..n] == order[..n - 1] + [order[n - 1]];
    }
  }

  lemma {:induction false} FirstEnded(known: map<Id, DeviceRec>, which: Which, b: Books,
                                      order: seq<Id>, n: nat, final: SessionState, actor: Id, now: Time)
    requires n <= |order| && NoDuplicates(order)
    ensures FinishFirst(b, known, which, order, n, final, actor, now).history ==
            b.history + EndEvents(known, b.sessions, which, final, actor, order[..n], now)
  {
    if n > 0 {
      FirstEnded(known, which, b, order, n - 1, final, actor, now);
      FirstFinished(b, known, which, order, n - 1, final, actor, now, order[n - 1]);
      assert order[..n][..n - 1] == order[..n - 1];
    }
  }

  /** The loop does what EndWhere says. */
  lemma AllFinished(known: map<Id, DeviceRec>, which: Which, b: Books, order: seq<Id>,
                    final: SessionState, actor: Id, now: Time)
    requires IsOrder(order, b.sessions.Keys)
    ensures FinishFirst(b, known, which, order, |order|, final, actor, now).sessions ==
            ApplyEffect(known, b.sessions, EndWhere(which, final, actor, order))
    ensures FinishFirst(b, known, which, order, |order|, final, actor, now).history ==
            b.history + EndEvents(known, b.sessions, which, final, actor, order, now)
  {
    assert order[..|order|] == order;
    FirstEnded(known, which, b, order, |order|, final, actor, now);
    forall id {
      FirstFinished(b, known, which, order, |order|, final, actor, now, id);
    }
  }
}
