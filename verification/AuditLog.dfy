/** A bounded log and its newest-first listing, against the unbounded history. */
module AuditLog {

  /** The last n entries. */
  function Last<T>(s: seq<T>, n: nat): seq<T> {
    if |s| <= n then s else s[|s| - n..]
  }

  /** Appending to the bounded log and cutting it is appending to the history. */
  lemma LastAppend<T>(history: seq<T>, e: T, n: nat)
    ensures Last(Last(history, n) + [e], n) == Last(history + [e], n)
  {
  }

  function Matching<T>(s: seq<T>, want: T -> bool): seq<T> {
    if s == [] then []
    else Matching(s[..|s| - 1], want) + if want(s[|s| - 1]) then [s[|s| - 1]] else []
  }

  /** The newest wanted entries, newest first, at most `limit` of them. */
  function Newest<T>(s: seq<T>, want: T -> bool, limit: nat): seq<T>
    decreases |s|
  {
    if s == [] || limit == 0 then []
    else if want(s[|s| - 1]) then [s[|s| - 1]] + Newest(s[..|s| - 1], want, limit - 1)
    else Newest(s[..|s| - 1], want, limit)
  }

  /** They are the wanted entries read backwards and cut at the limit: none is skipped for an
      older one, none appears twice, and a short page means there are no more. */
  lemma {:induction false} NewestIsMatchingReversed<T>(s: seq<T>, want: T -> bool, limit: nat)
    ensures var all := Matching(s, want);
            var page := Newest(s, want, limit);
            && |page| == (if limit <= |all| then limit else |all|)
            && forall k :: 0 <= k < |page| ==> page[k] == all[|all| - 1 - k]
    decreases |s|
  {
    if s != [] && limit != 0 {
      NewestIsMatchingReversed(s[..|s| - 1], want, if want(s[|s| - 1]) then limit - 1 else limit);
    }
  }

  lemma {:induction false} MatchingAppend<T>(a: seq<T>, b: seq<T>, want: T -> bool)
    ensures Matching(a + b, want) == Matching(a, want) + Matching(b, want)
  {
    if b == [] {
      assert a + b == a;
    } else {
      assert (a + b)[..|a + b| - 1] == a + b[..|b| - 1];
      MatchingAppend(a, b[..|b| - 1], want);
    }
  }

  /** Looking at the bounded log instead of the history loses only entries too old to be kept. */
  lemma MatchingOfLast<T>(history: seq<T>, want: T -> bool, n: nat)
    ensures var cut := |history| - |Last(history, n)|;
            && |Last(history, n)| == (if n <= |history| then n else |history|)
            && Matching(history, want) == Matching(history[..cut], want) + Matching(Last(history, n), want)
  {
    var cut := |history| - |Last(history, n)|;
    assert history == history[..cut] + Last(history, n);
    MatchingAppend(history[..cut], Last(history, n), want);
  }

  /** What a backward loop ends with that has n entries to go and `page` so far. */
  function Gather<T>(s: seq<T>, want: T -> bool, limit: nat, page: seq<T>, n: nat): seq<T>
    requires n <= |s|
    decreases n
  {
    if n == 0 || |page| >= limit then page
    else Gather(s, want, limit, if want(s[n - 1]) then page + [s[n - 1]] else page, n - 1)
  }

  lemma {:induction false} GatherIsNewest<T>(s: seq<T>, want: T -> bool, limit: nat, page: seq<T>, n: nat)
    requires n <= |s| && |page| <= limit
    ensures Gather(s, want, limit, page, n) == page + Newest(s[..n], want, limit - |page|)
    decreases n
  {
    if n > 0 && |page| < limit {
      assert s[..n][..n - 1] == s[..n - 1];
      GatherIsNewest(s, want, limit, if want(s[n - 1]) then page + [s[n - 1]] else page, n - 1);
    }
  }

  lemma GatherAll<T>(s: seq<T>, want: T -> bool, limit: nat)
    ensures Gather(s, want, limit, [], |s|) == Newest(s, want, limit)
  {
    GatherIsNewest(s, want, limit, [], |s|);
    assert s[..|s|] == s;
  }
}

/** The audit part of server/internal/store/memory.go. */
module MemoryStore {
  import opened Types
  import opened AuditLog

  datatype AuditEvent = AuditEvent(id: Id, actor: Id, action: string, resource: Id, at: Time)

  predicate ByActor(actor: Id, e: AuditEvent) {
    e.actor == actor
  }

  class Store {
    var audit: seq<AuditEvent>
    /** Every event ever recorded. */
    ghost var history: seq<AuditEvent>

    ghost predicate Valid()
      reads this
    {
      audit == Last(history, AUDIT_CAPACITY)
    }

    constructor ()
      ensures Valid() && history == []
    {
      audit := [];
      history := [];
    }

    method CreateAudit(e: AuditEvent)
      requires Valid()
      modifies this
      ensures Valid() && history == old(history) + [e]
    {
      LastAppend(history, e, AUDIT_CAPACITY);
      audit := audit + [e];
      history := history + [e];
      if |audit| > AUDIT_CAPACITY {
        audit := audit[|audit| - AUDIT_CAPACITY..];
      }
    }

    method ListAudit(actor: Id, limit: int) returns (out: seq<AuditEvent>)
      requires Valid()
      ensures out == Newest(Last(history, AUDIT_CAPACITY), e => ByActor(actor, e), if limit < 0 then 0 else limit)
    {
      out := [];
      var i := |audit| - 1;
      ghost var most := if limit < 0 then 0 else limit;
      ghost var want := e => ByActor(actor, e);
      GatherAll(audit, want, most);
      while i >= 0 && |out| < limit
        invariant -1 <= i < |audit|
        invariant Gather(audit, want, most, out, i + 1) == Newest(audit, want, most)
        decreases i
      {
        var e := audit[i];
        if e.actor == actor {
          out := out + [e];
        }
        i := i - 1;
      }
    }
  }
}
