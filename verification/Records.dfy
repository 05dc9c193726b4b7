/** Devices and sessions, which the handlers and the maps share and update in place. */
module Records {
  import opened Types

  class Session {
    const id: Id
    const operator: Id
    const source: Id
    const target: Id
    const requested: seq<Permission>
    const created: Time
    const sourceKey: string
    const targetKey: string
    var state: SessionState
    var granted: seq<Permission>
    var expires: Time
    var epoch: nat

    constructor (v: SessionRec)
      ensures Rec() == v && id == v.id
    {
      id, operator, source, target := v.id, v.operator, v.source, v.target;
      requested, created, sourceKey, targetKey := v.requested, v.created, v.sourceKey, v.targetKey;
      state, granted, expires, epoch := v.state, v.granted, v.expires, v.epoch;
    }

    function Rec(): SessionRec
      reads this
    {
      SessionRec(id, operator, source, target, state, requested, granted, created, expires, epoch, sourceKey, targetKey)
    }
  }

  class Device {
    const id: Id
    const owner: Id
    const key: string
    var name: string
    var os: string
    var kind: string
    var lastSeen: Time
    var revoked: bool

    constructor (id: Id, owner: Id, key: string, name: string, os: string, kind: string)
      ensures Rec() == DeviceRec(id, owner, key, name, os, kind, ZERO_TIME, false)
      ensures this.id == id && this.key == key
    {
      this.id, this.owner, this.key := id, owner, key;
      this.name, this.os, this.kind, this.lastSeen, this.revoked := name, os, kind, ZERO_TIME, false;
    }

    function Rec(): DeviceRec
      reads this
    {
      DeviceRec(id, owner, key, name, os, kind, lastSeen, revoked)
    }
  }

  ghost function SessionRecs(m: map<Id, Session>): map<Id, SessionRec>
    reads m.Values
  {
    map id | id in m :: m[id].Rec()
  }

  ghost function DeviceRecs(m: map<Id, Device>): map<Id, DeviceRec>
    reads m.Values
  {
    map id | id in m :: m[id].Rec()
  }

  /** Every device is stored under its own name, and its key is its own. */
  ghost predicate Distinct(devices: map<Id, Device>) {
    && (forall id :: id in devices ==> devices[id].id == id)
    && (forall a, b :: a in devices && b in devices && devices[a].key == devices[b].key ==> a == b)
  }

  /** The records agree with the devices in what never changes. */
  ghost predicate Owns(devices: map<Id, Device>, known: map<Id, DeviceRec>) {
    devices.Keys == known.Keys && forall id :: id in devices ==> devices[id].owner == known[id].owner
  }

  /** Every session is stored under its own name, so only there. */
  ghost predicate Named(sessions: map<Id, Session>) {
    forall id :: id in sessions ==> sessions[id].id == id
  }

  lemma OneSession(sessions: map<Id, Session>, was: map<Id, SessionRec>, id: Id)
    requires id in sessions && was.Keys == sessions.Keys
    requires forall k :: k in sessions && k != id ==> sessions[k].Rec() == was[k]
    ensures SessionRecs(sessions) == was[id := sessions[id].Rec()]
  {
  }

  lemma OneMoreSession(sessions: map<Id, Session>, was: map<Id, SessionRec>, id: Id)
    requires id in sessions && sessions.Keys == was.Keys + {id}
    requires forall k :: k in was && k != id ==> sessions[k].Rec() == was[k]
    ensures SessionRecs(sessions) == was[id := sessions[id].Rec()]
  {
  }

  lemma SameSessions(sessions: map<Id, Session>, was: map<Id, SessionRec>)
    requires was.Keys == sessions.Keys
    requires forall k :: k in sessions ==> sessions[k].Rec() == was[k]
    ensures SessionRecs(sessions) == was
  {
  }

  lemma SameDevices(devices: map<Id, Device>, was: map<Id, DeviceRec>)
    requires was.Keys == devices.Keys
    requires forall k :: k in devices ==> devices[k].Rec() == was[k]
    ensures DeviceRecs(devices) == was
  {
  }

  lemma OneDevice(devices: map<Id, Device>, was: map<Id, DeviceRec>, id: Id)
    requires id in devices && devices.Keys == was.Keys + {id}
    requires forall k :: k in was && k != id ==> devices[k].Rec() == was[k]
    ensures DeviceRecs(devices) == was[id := devices[id].Rec()]
  {
  }
}
