/** What a device registration is answered and leaves, in any run, and what becomes of a device at all. */
module Enrolment {
  import opened Types
  import opened Model
  import opened Runs
  import opened Frames
  import opened Worlds
  import opened Promises
  import opened Terminations

  /** A computer with a supported Windows, or an Android device, with a name of 1 to 80 characters. */
  predicate WellFormed(i: Input)
    requires i.RegisterDevice?
  {
    && 1 <= |i.name| <= 80
    && (|| ((i.kind == "" || i.kind == "pc") && i.os in {"Windows 10", "Windows 11"})
        || (i.kind == "android" && i.os != ""))
  }

  function KindIn(i: Input): string
    requires i.RegisterDevice?
  {
    if i.kind == "" then "pc" else i.kind
  }

  /** One device becomes d, one event is recorded, and the answer is the device as stored. */
  predicate Enrols(st: State, st': State, r: Response, id: Id, d: DeviceRec, code: nat, e: Audit) {
    && st'.devices == st.devices[id := d] && r == DeviceOut(code, d) && st'.history == st.history + [e]
  }

  function Unrevoked(st: State, user: Id): set<Id> {
    set x | x in st.devices && st.devices[x].owner == user && !st.devices[x].revoked
  }

  /** A registration whose proof was good: a device that holds the text already keeps everything but what
      the request says of it, unless it is another's or revoked; else a new one is stored. */
  ghost predicate OnEnrolment(st: State, st': State, r: Response, i: Input, now: Time)
    requires i.RegisterDevice?
  {
    && (forall h :: h in st.devices && st.devices[h].key == i.key ==> HeldLaw(st, st', r, i, now, h))
    && ((forall h :: h in st.devices ==> st.devices[h].key != i.key) ==>
          && (r == Fail(409, DeviceLimit) <==> |Unrevoked(st, i.user)| >= 100)
          && (|Unrevoked(st, i.user)| < 100 ==>
                Enrols(st, st', r, i.newId,
                       DeviceRec(i.newId, i.user, i.key, i.name, i.os, KindIn(i), ZERO_TIME, false), 201,
                       Audit(i.user, DeviceRegistered, i.newId, now))))
  }

  /** A refusal leaves devices and history alone; elsewhere only the challenge of a proof is gone. */
  ghost predicate EnrolmentLaw(st: State, e: Event, r: Response, st': State)
    requires e.input.RegisterDevice?
  {
    var i := e.input;
    var proved := ProofOk(st, i.user, i.key, i.proof, e.now);
    && st' == st.(devices := st'.devices, history := st'.history,
                  challenges := if WellFormed(i) then st.challenges - {i.proof.nonce} else st.challenges)
    && (r.Fail? ==> st'.devices == st.devices && st'.history == st.history)
    && (r == Fail(400, BadDevice) <==> !WellFormed(i))
    && (r == Fail(403, DeviceProofRequired) <==> WellFormed(i) && !proved)
    && (WellFormed(i) && proved ==> OnEnrolment(st, st', r, i, e.now))
  }

  // ---------- section by section ----------

  lemma WellFormedIsValid(i: Input)
    requires i.RegisterDevice?
    ensures WellFormed(i) <==> ValidDevice(i.name, i.os, DefaultKind(i.kind))
    ensures KindIn(i) == DefaultKind(i.kind)
  {
  }

  predicate HeldLaw(st: State, st': State, r: Response, i: Input, now: Time, h: Id)
    requires i.RegisterDevice? && h in st.devices
  {
    var d := st.devices[h];
    && (r == Fail(409, IdentityTaken) <==> d.owner != i.user)
    && (r == Fail(403, IdentityRevoked) <==> d.owner == i.user && d.revoked)
    && (d.owner == i.user && !d.revoked ==>
          Enrols(st, st', r, h, d.(name := i.name, os := i.os, kind := KindIn(i)), 200,
                 Audit(i.user, DeviceConfirmed, h, now)))
  }

  lemma QuietCommit(o: Outcome, now: Time)
    requires o.effect == Quiet
    ensures Commit(o, now) == o.base.(history := o.base.history + o.tail)
  {
    assert o.base.history + [] + o.tail == o.base.history + o.tail;
  }

  lemma ConfirmIsLawful(st: State, i: Input, now: Time, h: Id)
    requires i.RegisterDevice? && h in st.devices
    ensures var o := Confirm(st, i.user, h, i.name, i.os, KindIn(i), now);
            HeldLaw(st, Commit(o, now), o.reply, i, now, h)
  {
    QuietCommit(Confirm(st, i.user, h, i.name, i.os, KindIn(i), now), now);
  }

  lemma EnrolIsLawful(st: State, i: Input, now: Time)
    requires i.RegisterDevice? && UniqueKeys(st.devices)
    ensures var o := Enrol(st, i.user, i.name, i.key, i.os, KindIn(i), i.newId, now);
            OnEnrolment(st, Commit(o, now), o.reply, i, now)
  {
    var o := Enrol(st, i.user, i.name, i.key, i.os, KindIn(i), i.newId, now);
    assert Unrevoked(st, i.user) == ActiveDevices(st.devices, i.user);
    if h :| HoldsKey(st.devices, h, i.key) {
      assert forall x :: HoldsKey(st.devices, x, i.key) ==> x == h;
      assert o == Confirm(st, i.user, h, i.name, i.os, KindIn(i), now);
      ConfirmIsLawful(st, i, now, h);
      assert forall x :: x in st.devices && st.devices[x].key == i.key ==> HoldsKey(st.devices, x, i.key);
    } else {
      assert forall x :: x in st.devices ==> st.devices[x].key == i.key ==> HoldsKey(st.devices, x, i.key);
      QuietCommit(o, now);
    }
  }

  lemma EnrolmentStages(st: State, e: Event)
    requires e.input.RegisterDevice?
    ensures var i := e.input;
            var o := PlanRegisterDevice(st, i.user, i.proof, i.name, i.key, i.os, i.kind, i.newId, e.now);
            o == if !WellFormed(i) then Refuse(st, 400, BadDevice)
                 else if !ProofOk(st, i.user, i.key, i.proof, e.now)
                 then Refuse(Spend(st, i.proof.nonce), 403, DeviceProofRequired)
                 else Enrol(Spend(st, i.proof.nonce), i.user, i.name, i.key, i.os, KindIn(i), i.newId, e.now)
  {
    WellFormedIsValid(e.input);
  }

  lemma SpentAlike(st: State, nonce: string, st': State, r: Response, i: Input, now: Time)
    requires i.RegisterDevice? && OnEnrolment(Spend(st, nonce), st', r, i, now)
    ensures OnEnrolment(st, st', r, i, now)
  {
    assert Unrevoked(Spend(st, nonce), i.user) == Unrevoked(st, i.user);
    forall h | h in st.devices && st.devices[h].key == i.key ensures HeldLaw(st, st', r, i, now, h) {
      assert HeldLaw(Spend(st, nonce), st', r, i, now, h);
    }
  }

  lemma RefusalIsLawful(st: State, e: Event, o: Outcome)
    requires e.input.RegisterDevice?
    requires || (!WellFormed(e.input) && o == Refuse(st, 400, BadDevice))
             || (WellFormed(e.input) && !ProofOk(st, e.input.user, e.input.key, e.input.proof, e.now)
                 && o == Refuse(Spend(st, e.input.proof.nonce), 403, DeviceProofRequired))
    ensures EnrolmentLaw(st, e, o.reply, Commit(o, e.now))
  {
    QuietCommit(o, e.now);
    assert o.base.history + [] == st.history;
  }

  lemma EnrollingIsLawful(st: State, e: Event)
    requires e.input.RegisterDevice? && UniqueKeys(st.devices) && WellFormed(e.input)
    requires ProofOk(st, e.input.user, e.input.key, e.input.proof, e.now)
    ensures var i := e.input;
            var o := Enrol(Spend(st, i.proof.nonce), i.user, i.name, i.key, i.os, KindIn(i), i.newId, e.now);
            EnrolmentLaw(st, e, o.reply, Commit(o, e.now))
  {
    var i := e.input;
    var o := Enrol(Spend(st, i.proof.nonce), i.user, i.name, i.key, i.os, KindIn(i), i.newId, e.now);
    EnrolIsLawful(Spend(st, i.proof.nonce), i, e.now);
    EnrolIsConfined(Spend(st, i.proof.nonce), i, e.now);
    SpentAlike(st, i.proof.nonce, Commit(o, e.now), o.reply, i, e.now);
    if o.reply.Fail? {
      QuietCommit(o, e.now);
    }
  }

  lemma RegisterDeviceIsLawful(st: State, e: Event)
    requires e.input.RegisterDevice? && UniqueKeys(st.devices)
    ensures var i := e.input;
            var o := PlanRegisterDevice(st, i.user, i.proof, i.name, i.key, i.os, i.kind, i.newId, e.now);
            EnrolmentLaw(st, e, o.reply, Commit(o, e.now))
  {
    var i := e.input;
    EnrolmentStages(st, e);
    if WellFormed(i) && ProofOk(st, i.user, i.key, i.proof, e.now) {
      EnrollingIsLawful(st, e);
    } else {
      RefusalIsLawful(st, e, PlanRegisterDevice(st, i.user, i.proof, i.name, i.key, i.os, i.kind, i.newId, e.now));
    }
  }

  predicate IsModest(st: State, o: Outcome) {
    && o.base == st.(devices := o.base.devices) && o.effect == Quiet
    && (o.reply.Fail? ==> o.base == st && o.tail == [])
    && o.reply != Fail(400, BadDevice) && o.reply != Fail(403, DeviceProofRequired)
  }

  lemma EnrolIsModest(st: State, i: Input, now: Time)
    requires i.RegisterDevice?
    ensures IsModest(st, Enrol(st, i.user, i.name, i.key, i.os, KindIn(i), i.newId, now))
  {
    forall h | HoldsKey(st.devices, h, i.key)
      ensures IsModest(st, Confirm(st, i.user, h, i.name, i.os, KindIn(i), now))
    {
    }
  }

  lemma EnrolIsConfined(st: State, i: Input, now: Time)
    requires i.RegisterDevice?
    ensures var o := Enrol(st, i.user, i.name, i.key, i.os, KindIn(i), i.newId, now);
            var st' := Commit(o, now);
            IsModest(st, o) && st' == st.(devices := st'.devices, history := st'.history)
  {
    var o := Enrol(st, i.user, i.name, i.key, i.os, KindIn(i), i.newId, now);
    EnrolIsModest(st, i, now);
    QuietCommit(o, now);
  }

  // ---------- in any run ----------

  /** In any run: a registration stores or confirms a device exactly if it is well-formed, proves possession of
      the key, and the text is free or held by an unrevoked device of the same owner; what it stores is what
      the request says. */
  lemma EnrolmentIsExact(ws: seq<World>, es: seq<Event>, purge: bool, n: nat)
    requires IsRun(ws, es, purge) && n < |es| && es[n].input.RegisterDevice?
    ensures EnrolmentLaw(ws[n].st, es[n], Reply(ws[n], es[n], purge), ws[n + 1].st)
  {
    var i := es[n].input;
    RegistryIsSound(ws, es, purge, n, i.user);
    assert Plan(ws[n].st, es[n], purge) ==
           PlanRegisterDevice(ws[n].st, i.user, i.proof, i.name, i.key, i.os, i.kind, i.newId, es[n].now);
    RegisterDeviceIsLawful(ws[n].st, es[n]);
  }

  /** In any run a device comes to be revoked exactly by a revocation that its owner asks for. */
  lemma OnlyOwnerRevokes(ws: seq<World>, es: seq<Event>, purge: bool, n: nat, d: Id)
    requires IsRun(ws, es, purge) && n < |es| && d in ws[n].st.devices && !ws[n].st.devices[d].revoked
    ensures d in ws[n + 1].st.devices
    ensures ws[n + 1].st.devices[d].revoked <==> es[n].input == RevokeDevice(ws[n].st.devices[d].owner, d)
  {
    var st, e := ws[n].st, es[n];
    if e.input.RevokeDevice? {
      RevokeIsExact(ws, es, purge, n);
    } else if e.input.RegisterDevice? {
      EnrolmentIsExact(ws, es, purge, n);
      RunNamed(ws, es, purge, n);
      assert e.input.newId in Draws(e.input);
      EnrolmentRevokesNone(st, e, Reply(ws[n], e, purge), ws[n + 1].st, d);
    } else {
      PlanFramed(st, e, purge);
    }
  }

  lemma EnrolmentRevokesNone(st: State, e: Event, r: Response, st': State, d: Id)
    requires e.input.RegisterDevice? && EnrolmentLaw(st, e, r, st') && e.input.newId !in st.devices
    requires d in st.devices && !st.devices[d].revoked
    ensures d in st'.devices && !st'.devices[d].revoked
  {
    if !r.Fail? {
      var x, v := EnrolmentStores(st, st', r, e.input, e.now);
    }
  }

  lemma EnrolmentStores(st: State, st': State, r: Response, i: Input, now: Time) returns (x: Id, d: DeviceRec)
    requires i.RegisterDevice? && OnEnrolment(st, st', r, i, now) && !r.Fail?
    ensures st'.devices == st.devices[x := d] && !d.revoked
  {
    if h :| h in st.devices && st.devices[h].key == i.key {
      assert HeldLaw(st, st', r, i, now, h);
      x, d := h, st'.devices[h];
    } else {
      x, d := i.newId, st'.devices[i.newId];
    }
  }
}
