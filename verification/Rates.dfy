/** The fixed-window limiter over whole runs, stale windows deleted or not. */
module Rates {
  import opened Types
  import opened Model
  import opened Runs
  import opened Worlds
  import opened Frames

  /** The event is a request for (host, authPath) and is answered that it may go on. */
  ghost predicate Admits(w: World, e: Event, purge: bool, host: string, authPath: bool) {
    e.input == Arrive(host, authPath) && Reply(w, e, purge) == Admitted
  }

  /** The requests let through among the first n events of a run, at from <= now < until. */
  ghost function Count(ws: seq<World>, es: seq<Event>, purge: bool, host: string, authPath: bool,
                       from: Time, until: Time, n: nat): nat
    requires n <= |es| < |ws|
  {
    if n == 0 then 0
    else
      Count(ws, es, purge, host, authPath, from, until, n - 1) +
      if from <= es[n - 1].now < until && Admits(ws[n - 1], es[n - 1], purge, host, authPath) then 1 else 0
  }

  // ---------- one section ----------

  /** What a section does to the window stored under a key: nothing, deletes it when its time is
      up, or (for a request of that key) charges it. */
  ghost predicate RateMove(r: map<string, Rate>, r': map<string, Rate>, key: string, now: Time) {
    || (key in r && key in r' && r'[key] == r[key])
    || (key !in r && key !in r')
    || (key in r && key !in r' && r[key].until <= now)
    || Charged(r, r', key, now)
  }

  ghost predicate Charged(r: map<string, Rate>, r': map<string, Rate>, key: string, now: Time) {
    && key in r'
    && if key in r && now < r[key].until then r'[key] == Rate(r[key].count + 1, r[key].until)
       else r'[key] == Rate(1, now + MINUTE)
  }

  lemma ArriveMoves(st: State, host: string, authPath: bool, now: Time, order: seq<Id>, purge: bool, key: string)
    requires now >= 0
    ensures var o := PlanArrive(st, host, authPath, now, order, purge);
            && RateMove(st.rates, o.base.rates, key, now)
            && (key == RateKey(host, authPath) ==>
                  && Charged(st.rates, o.base.rates, key, now)
                  && (o.reply == Admitted <==> o.base.rates[key].count <= RateLimit(authPath)))
  {
  }

  /** One step of a run, as the window of (host, authPath) sees it. */
  ghost predicate Ticks(w: World, e: Event, w': World, purge: bool, host: string, authPath: bool) {
    var key := RateKey(host, authPath);
    && 0 <= w.clock <= e.now == w'.clock
    && RateMove(w.st.rates, w'.st.rates, key, e.now)
    && (Admits(w, e, purge, host, authPath) ==>
          Charged(w.st.rates, w'.st.rates, key, e.now) && w'.st.rates[key].count <= RateLimit(authPath))
  }

  lemma StepTicks(w: World, e: Event, purge: bool, host: string, authPath: bool)
    requires w.clock >= 0 && Enabled(w, e) && Defined(w.st, e.input)
    ensures Ticks(w, e, Step(w, e, purge), purge, host, authPath)
  {
    var key := RateKey(host, authPath);
    if e.input.Arrive? {
      ArriveMoves(w.st, e.input.host, e.input.authPath, e.now, e.order, purge, key);
    } else {
      PlanFramed(w.st, e, purge);
    }
  }

  ghost predicate Ticking(ws: seq<World>, es: seq<Event>, purge: bool, host: string, authPath: bool) {
    && |ws| == |es| + 1 && ws[0].st.rates == map[]
    && forall n :: 0 <= n < |es| ==> Ticks(ws[n], es[n], ws[n + 1], purge, host, authPath)
  }

  lemma RunTicks(ws: seq<World>, es: seq<Event>, purge: bool, host: string, authPath: bool)
    requires IsRun(ws, es, purge)
    ensures Ticking(ws, es, purge, host, authPath)
  {
    forall n | 0 <= n < |es| ensures Ticks(ws[n], es[n], ws[n + 1], purge, host, authPath) {
      ClockIsPositive(ws, es, purge, n);
      StepTicks(ws[n], es[n], purge, host, authPath);
    }
  }

  // ---------- against the requests alone ----------

  /** The request is charged to this name: the host's, or another for its authentication requests. */
  predicate Knocks(e: Event, name: string) {
    e.input.Arrive? && name == e.input.host + if e.input.authPath then "/auth" else ""
  }

  /** One more request: counted, or the first of a new minute. */
  function NextWindow(v: Rate, now: Time): Rate {
    if now < v.until then Rate(v.count + 1, v.until) else Rate(1, now + MINUTE)
  }

  /** The window after the first n events, reckoned from the requests alone: a minute from the request that
      opens it, and how many it has seen. */
  function Window(es: seq<Event>, name: string, n: nat): Rate
    requires n <= |es|
  {
    if n == 0 then Rate(0, 0)
    else
      var v := Window(es, name, n - 1);
      if !Knocks(es[n - 1], name) then v
      else NextWindow(v, es[n - 1].now)
  }

  /** The stored window is this one, or there is none and this one is over. */
  predicate IsWindow(rates: map<string, Rate>, name: string, v: Rate, clock: Time) {
    if name in rates then rates[name] == v else v.until <= clock
  }

  lemma PurgeKeepsWindow(st: State, purge: bool, name: string, v: Rate, clock: Time, now: Time)
    requires clock <= now && IsWindow(st.rates, name, v, clock)
    ensures IsWindow(if purge then Purge(st, now).rates else st.rates, name, v, now)
  {
  }

  lemma ChargeIsNext(rates: map<string, Rate>, name: string, v: Rate, now: Time)
    requires now >= 0 && IsWindow(rates, name, v, now)
    ensures Charge(rates, name, now) == NextWindow(v, now)
  {
  }

  lemma KeyIsName(host: string, authPath: bool)
    ensures RateKey(host, authPath) == host + if authPath then "/auth" else ""
    ensures RateLimit(authPath) == if authPath then 15 else 300
  {
    assert host + "" == host;
  }

  lemma ArriveKeepsWindow(st: State, host: string, authPath: bool, clock: Time, now: Time, order: seq<Id>, purge: bool,
                          name: string, v: Rate)
    requires 0 <= clock <= now && IsWindow(st.rates, name, v, clock)
    ensures var o := PlanArrive(st, host, authPath, now, order, purge);
            if name == host + (if authPath then "/auth" else "") then
              && IsWindow(o.base.rates, name, NextWindow(v, now), now)
              && o.reply == if NextWindow(v, now).count <= (if authPath then 15 else 300)
                            then Admitted else Fail(429, TooManyRequests)
            else IsWindow(o.base.rates, name, v, now)
  {
    var rates := if purge then Purge(st, now).rates else st.rates;
    PurgeKeepsWindow(st, purge, name, v, clock, now);
    KeyIsName(host, authPath);
    ChargeIsNext(rates, name, v, now);
    assert PlanArrive(st, host, authPath, now, order, purge).base.rates ==
           rates[RateKey(host, authPath) := Charge(rates, RateKey(host, authPath), now)];
  }

  lemma {:induction false} RunKeepsWindow(ws: seq<World>, es: seq<Event>, purge: bool, name: string, n: nat)
    requires IsRun(ws, es, purge) && n <= |es|
    ensures ws[n].clock >= 0 && IsWindow(ws[n].st.rates, name, Window(es, name, n), ws[n].clock)
  {
    if n > 0 {
      var w, e := ws[n - 1], es[n - 1];
      RunKeepsWindow(ws, es, purge, name, n - 1);
      if e.input.Arrive? {
        ArriveKeepsWindow(w.st, e.input.host, e.input.authPath, w.clock, e.now, e.order, purge, name,
                          Window(es, name, n - 1));
      } else {
        PlanFramed(w.st, e, purge);
      }
    }
  }

  /** In any run, stale windows deleted or not, a request is let through exactly if its window has seen no more
      than 15 authentication requests of the host, or 300 others, this one included. */
  lemma AdmittedIffRoom(ws: seq<World>, es: seq<Event>, purge: bool, n: nat)
    requires IsRun(ws, es, purge) && n < |es| && es[n].input.Arrive?
    ensures var i := es[n].input;
            var v := Window(es, i.host + (if i.authPath then "/auth" else ""), n + 1);
            Reply(ws[n], es[n], purge) ==
            if v.count <= (if i.authPath then 15 else 300) then Admitted else Fail(429, TooManyRequests)
  {
    var i := es[n].input;
    var name := i.host + if i.authPath then "/auth" else "";
    RunKeepsWindow(ws, es, purge, name, n);
    ArriveKeepsWindow(ws[n].st, i.host, i.authPath, ws[n].clock, es[n].now, es[n].order, purge, name,
                      Window(es, name, n));
  }

  // ---------- any one-minute span ----------

  /** After some events with f of them let through in [t, t + MINUTE): the span is over; or all of
      those were charged to the present window, which also counted an earlier request if it began
      before t; or the present window reaches past the span and fewer than `limit` of them are
      older. A deleted window is one that ended by the clock. */
  predicate SpanBound(w: World, key: string, limit: nat, t: Time, f: nat) {
    && f < 2 * limit
    && (key in w.st.rates ==> w.st.rates[key].count > 0)
    && (|| t + MINUTE <= w.clock
        || if key in w.st.rates then
             var v := w.st.rates[key];
             || (f <= v.count && f <= limit && (f > 0 ==> t < v.until) &&
                 (v.until < t + MINUTE ==> f < v.count && f < limit))
             || (f < limit + v.count && t + MINUTE < v.until)
           else f < limit && (f > 0 ==> t < w.clock))
  }

  lemma SpanBoundKept(w: World, e: Event, w': World, purge: bool, host: string, authPath: bool, t: Time, f: nat)
    requires Ticks(w, e, w', purge, host, authPath)
    requires SpanBound(w, RateKey(host, authPath), RateLimit(authPath), t, f)
    ensures var f' := f + if t <= e.now < t + MINUTE && Admits(w, e, purge, host, authPath) then 1 else 0;
            SpanBound(w', RateKey(host, authPath), RateLimit(authPath), t, f')
  {
  }

  lemma {:induction false} SpanIsBounded(ws: seq<World>, es: seq<Event>, purge: bool, host: string, authPath: bool,
                                         t: Time, n: nat)
    requires Ticking(ws, es, purge, host, authPath) && n <= |es|
    ensures SpanBound(ws[n], RateKey(host, authPath), RateLimit(authPath), t,
                      Count(ws, es, purge, host, authPath, t, t + MINUTE, n))
  {
    if n > 0 {
      SpanIsBounded(ws, es, purge, host, authPath, t, n - 1);
      SpanBoundKept(ws[n - 1], es[n - 1], ws[n], purge, host, authPath, t,
                    Count(ws, es, purge, host, authPath, t, t + MINUTE, n - 1));
    }
  }

  /** No half-open minute, wherever it starts, lets twice the limit through. */
  lemma MinuteBound(ws: seq<World>, es: seq<Event>, purge: bool, host: string, authPath: bool, t: Time)
    requires IsRun(ws, es, purge)
    ensures Count(ws, es, purge, host, authPath, t, t + MINUTE, |es|) < 2 * RateLimit(authPath)
  {
    RunTicks(ws, es, purge, host, authPath);
    SpanIsBounded(ws, es, purge, host, authPath, t, |es|);
  }

  // ---------- one window ----------

  /** With f requests let through in [u - MINUTE, u): if that is the stored window, f is within its
      count and the limit; if it lies after the stored window, or after now, f is 0. */
  predicate WindowBound(w: World, key: string, limit: nat, u: Time, f: nat) {
    if key in w.st.rates then
      var v := w.st.rates[key];
      && (u == v.until ==> f <= v.count && f <= limit)
      && (u >= v.until + MINUTE ==> f == 0)
    else u >= w.clock + MINUTE ==> f == 0
  }

  lemma WindowBoundKept(w: World, e: Event, w': World, purge: bool, host: string, authPath: bool, u: Time, f: nat)
    requires Ticks(w, e, w', purge, host, authPath)
    requires WindowBound(w, RateKey(host, authPath), RateLimit(authPath), u, f)
    ensures var f' := f + if u - MINUTE <= e.now < u && Admits(w, e, purge, host, authPath) then 1 else 0;
            WindowBound(w', RateKey(host, authPath), RateLimit(authPath), u, f')
  {
  }

  lemma {:induction false} WindowIsBounded(ws: seq<World>, es: seq<Event>, purge: bool, host: string, authPath: bool,
                                           u: Time, n: nat)
    requires Ticking(ws, es, purge, host, authPath) && n <= |es|
    ensures WindowBound(ws[n], RateKey(host, authPath), RateLimit(authPath), u,
                        Count(ws, es, purge, host, authPath, u - MINUTE, u, n))
  {
    if n > 0 {
      WindowIsBounded(ws, es, purge, host, authPath, u, n - 1);
      WindowBoundKept(ws[n - 1], es[n - 1], ws[n], purge, host, authPath, u,
                      Count(ws, es, purge, host, authPath, u - MINUTE, u, n - 1));
    }
  }

  /** The window that ends at u is the stored one, or u has passed. */
  predicate CurrentOrOver(w: World, key: string, limit: nat, u: Time, f: nat) {
    f <= limit && (u <= w.clock || (key in w.st.rates && w.st.rates[key].until == u && f <= w.st.rates[key].count))
  }

  lemma CurrentOrOverKept(w: World, e: Event, w': World, purge: bool, host: string, authPath: bool, u: Time, f: nat)
    requires Ticks(w, e, w', purge, host, authPath)
    requires CurrentOrOver(w, RateKey(host, authPath), RateLimit(authPath), u, f)
    ensures var f' := f + if u - MINUTE <= e.now < u && Admits(w, e, purge, host, authPath) then 1 else 0;
            CurrentOrOver(w', RateKey(host, authPath), RateLimit(authPath), u, f')
  {
  }

  lemma {:induction false} FromWindowOn(ws: seq<World>, es: seq<Event>, purge: bool, host: string, authPath: bool,
                                        u: Time, n: nat, m: nat)
    requires Ticking(ws, es, purge, host, authPath) && n <= m <= |es|
    requires CurrentOrOver(ws[n], RateKey(host, authPath), RateLimit(authPath), u,
                           Count(ws, es, purge, host, authPath, u - MINUTE, u, n))
    ensures CurrentOrOver(ws[m], RateKey(host, authPath), RateLimit(authPath), u,
                          Count(ws, es, purge, host, authPath, u - MINUTE, u, m))
    decreases m
  {
    if n < m {
      FromWindowOn(ws, es, purge, host, authPath, u, n, m - 1);
      CurrentOrOverKept(ws[m - 1], es[m - 1], ws[m], purge, host, authPath, u,
                        Count(ws, es, purge, host, authPath, u - MINUTE, u, m - 1));
    }
  }

  /** A window, once stored, lets no more than the limit through over the whole run. */
  lemma WindowLimit(ws: seq<World>, es: seq<Event>, purge: bool, host: string, authPath: bool, u: Time, n: nat)
    requires IsRun(ws, es, purge) && n <= |es|
    requires RateKey(host, authPath) in ws[n].st.rates && ws[n].st.rates[RateKey(host, authPath)].until == u
    ensures Count(ws, es, purge, host, authPath, u - MINUTE, u, |es|) <= RateLimit(authPath)
  {
    RunTicks(ws, es, purge, host, authPath);
    WindowIsBounded(ws, es, purge, host, authPath, u, n);
    FromWindowOn(ws, es, purge, host, authPath, u, n, |es|);
  }

  // ---------- the bound is reached ----------

  lemma {:induction false} CountOfPrefix(ws: seq<World>, es: seq<Event>, w: World, e: Event, purge: bool,
                                         host: string, authPath: bool, from: Time, until: Time, n: nat)
    requires n <= |es| && |ws| == |es| + 1
    ensures Count(ws + [w], es + [e], purge, host, authPath, from, until, n) ==
            Count(ws, es, purge, host, authPath, from, until, n)
  {
    if n > 0 {
      CountOfPrefix(ws, es, w, e, purge, host, authPath, from, until, n - 1);
    }
  }

  ghost predicate Idle(w: World, now: Time) {
    w.st.sessions == map[] && 0 <= w.clock <= now
  }

  lemma KnockStep(w: World, host: string, authPath: bool, now: Time)
    requires Idle(w, now)
    ensures var e := Event(Arrive(host, authPath), now, []);
            && Enabled(w, e) && Defined(w.st, e.input)
            && var w' := Step(w, e, true);
            && Idle(w', now)
            && Charged(w.st.rates, w'.st.rates, RateKey(host, authPath), now)
            && (Admits(w, e, true, host, authPath) <==>
                  w'.st.rates[RateKey(host, authPath)].count <= RateLimit(authPath))
  {
    ArriveMoves(w.st, host, authPath, now, [], true, RateKey(host, authPath));
  }

  lemma CountOfLonger(ws: seq<World>, es: seq<Event>, w: World, e: Event, purge: bool,
                      host: string, authPath: bool, from: Time, until: Time)
    requires |ws| == |es| + 1
    ensures Count(ws + [w], es + [e], purge, host, authPath, from, until, |es| + 1) ==
            Count(ws, es, purge, host, authPath, from, until, |es|) +
            if from <= e.now < until && Admits(ws[|es|], e, purge, host, authPath) then 1 else 0
  {
    CountOfPrefix(ws, es, w, e, purge, host, authPath, from, until, |es|);
    assert (ws + [w])[|es|] == ws[|es|] && (es + [e])[|es|] == e;
  }

  /** One more request, with no session to expire. */
  lemma Knock(ws: seq<World>, es: seq<Event>, host: string, authPath: bool, now: Time, t: Time)
      returns (ws': seq<World>, es': seq<Event>)
    requires IsRun(ws, es, true) && Idle(ws[|es|], now)
    ensures IsRun(ws', es', true) && Idle(ws'[|es'|], now)
    ensures Charged(ws[|es|].st.rates, ws'[|es'|].st.rates, RateKey(host, authPath), now)
    ensures Count(ws', es', true, host, authPath, t, t + MINUTE, |es'|) ==
            Count(ws, es, true, host, authPath, t, t + MINUTE, |es|) +
            if t <= now < t + MINUTE && ws'[|es'|].st.rates[RateKey(host, authPath)].count <= RateLimit(authPath)
            then 1 else 0
  {
    var e := Event(Arrive(host, authPath), now, []);
    KnockStep(ws[|es|], host, authPath, now);
    var w' := Step(ws[|es|], e, true);
    ws', es' := ws + [w'], es + [e];
    CountOfLonger(ws, es, w', e, true, host, authPath, t, t + MINUTE);
    ExtendsRun(ws, es, e, true);
  }

  /** k more requests in one instant of a window that still has room for them. */
  lemma {:induction false} Burst(ws: seq<World>, es: seq<Event>, host: string, authPath: bool, now: Time, t: Time,
                                 k: nat, v: Rate) returns (ws': seq<World>, es': seq<Event>)
    requires IsRun(ws, es, true) && Idle(ws[|es|], now)
    requires RateKey(host, authPath) in ws[|es|].st.rates && ws[|es|].st.rates[RateKey(host, authPath)] == v
    requires now < v.until && v.count + k <= RateLimit(authPath) && t <= now < t + MINUTE
    ensures IsRun(ws', es', true) && Idle(ws'[|es'|], now)
    ensures RateKey(host, authPath) in ws'[|es'|].st.rates
    ensures ws'[|es'|].st.rates[RateKey(host, authPath)] == v.(count := v.count + k)
    ensures Count(ws', es', true, host, authPath, t, t + MINUTE, |es'|) ==
            Count(ws, es, true, host, authPath, t, t + MINUTE, |es|) + k
  {
    if k == 0 {
      ws', es' := ws, es;
    } else {
      var ws1, es1 := Burst(ws, es, host, authPath, now, t, k - 1, v);
      ws', es' := Knock(ws1, es1, host, authPath, now, t);
    }
  }

  /** One request, half a minute later the rest of its window's, then all of the next window's. */
  lemma MinuteBoundIsReached(key: string, iceUrls: seq<string>, host: string, authPath: bool)
      returns (ws: seq<World>, es: seq<Event>, t: Time)
    ensures IsRun(ws, es, true)
    ensures Count(ws, es, true, host, authPath, t, t + MINUTE, |es|) == 2 * RateLimit(authPath) - 1
  {
    var limit := RateLimit(authPath);
    t := 30 * SECOND;
    ws, es := [Start(key, iceUrls)], [];
    ws, es := Knock(ws, es, host, authPath, 0, t);
    ws, es := Burst(ws, es, host, authPath, t, t, limit - 1, Rate(1, MINUTE));
    ws, es := Knock(ws, es, host, authPath, MINUTE, t);
    ws, es := Burst(ws, es, host, authPath, MINUTE, t, limit - 1, Rate(1, 2 * MINUTE));
  }
}
