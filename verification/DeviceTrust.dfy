/**
 Rotating the keys of trusted devices (apps/api/src/handlers/devices.ts:120-211): one claim on the
 current device, which checks every device that was read, and one update for each other trusted one.
 */
module DeviceTrust {
  import opened Options

  datatype DeviceKey = DeviceKey(user: Id, identifier: Id)

  datatype Device = Device(
    id: Id, userKey: Option<Id>, publicKey: Option<Id>, privateKey: Option<Id>, token: Option<Id>, updatedAt: int)

  /** A device of the user as it was read. */
  datatype Snapshot = Snapshot(identifier: Id, row: Device)

  datatype Keys = Keys(userKey: Id, publicKey: Id)

  datatype Rotation = Rotation(
    user: Id, current: Id, snapshots: seq<Snapshot>, keys: Keys, updates: map<Id, Keys>, token: Id, timestamp: int)

  datatype Outcome = Rotated | DeviceNotFound | BadRequest | Conflict

  predicate Trusted(row: Device) {
    row.userKey.Some? && row.publicKey.Some? && row.privateKey.Some?
  }

  function Touched(row: Device, r: Rotation): Device {
    row.(token := Some(r.token), updatedAt := if row.updatedAt + 1 > r.timestamp then row.updatedAt + 1 else r.timestamp)
  }

  /** What a device that was trusted when it was read is left with. */
  function Renewed(row: Device, snap: Snapshot, r: Rotation): Device {
    if snap.row.id in r.updates then
      var keys := r.updates[snap.row.id];
      Touched(row, r).(userKey := Some(keys.userKey), publicKey := Some(keys.publicKey), privateKey := snap.row.privateKey)
    else Touched(row, r).(userKey := None, publicKey := None, privateKey := None)
  }

  function Current(row: Device, r: Rotation): Device {
    Touched(row, r).(userKey := Some(r.keys.userKey), publicKey := Some(r.keys.publicKey))
  }

  /** What the request reads: distinct devices of the user, and nothing carries the token it draws. */
  ghost predicate Readable(devices: map<DeviceKey, Device>, r: Rotation) {
    && (forall i, j :: 0 <= i < j < |r.snapshots| ==>
          r.snapshots[i].identifier != r.snapshots[j].identifier && r.snapshots[i].row.id != r.snapshots[j].row.id)
    && (forall i :: 0 <= i < |r.snapshots| ==> r.snapshots[i].row.token != Some(r.token))
    && (forall k :: k in devices ==> devices[k].token != Some(r.token))
  }

  /** All devices that were read are still there with the tokens that were read. */
  predicate Unchanged(devices: map<DeviceKey, Device>, r: Rotation) {
    forall s :: s in r.snapshots ==>
      var key := DeviceKey(r.user, s.identifier);
      key in devices && devices[key].token == s.row.token
  }

  predicate Claims(devices: map<DeviceKey, Device>, r: Rotation) {
    DeviceKey(r.user, r.current) in devices && Unchanged(devices, r)
  }

  /** The checks before the batch. */
  function Precheck(r: Rotation): Outcome {
    if !(exists s :: s in r.snapshots && s.identifier == r.current) then DeviceNotFound
    else if exists s :: s in r.snapshots && s.identifier == r.current && s.row.id in r.updates then BadRequest
    else if exists id :: id in r.updates && !(exists s :: s in r.snapshots && s.row.id == id) then DeviceNotFound
    else Rotated
  }

  /**
   All of the rotation over the first `n` devices that were read: the current device has its new
   keys, every other one that was trusted has new keys with the private key that was read, or none,
   and nothing else has changed.
   */
  ghost predicate RotatedUpTo(before: map<DeviceKey, Device>, after: map<DeviceKey, Device>, r: Rotation, n: nat)
    requires n <= |r.snapshots| && DeviceKey(r.user, r.current) in before && Unchanged(before, r)
  {
    && after.Keys == before.Keys
    && after[DeviceKey(r.user, r.current)] == Current(before[DeviceKey(r.user, r.current)], r)
    && (forall i :: 0 <= i < n && r.snapshots[i].identifier != r.current && Trusted(r.snapshots[i].row) ==>
          var key := DeviceKey(r.user, r.snapshots[i].identifier);
          key in before && after[key] == Renewed(before[key], r.snapshots[i], r))
    && (forall k :: k in before && k != DeviceKey(r.user, r.current) && !TouchedKey(r, n, k) ==> after[k] == before[k])
  }

  /** One of the first `n` devices that the rotation updates beside the current one. */
  ghost predicate TouchedKey(r: Rotation, n: nat, k: DeviceKey)
    requires n <= |r.snapshots|
  {
    exists i :: 0 <= i < n && k == DeviceKey(r.user, r.snapshots[i].identifier) && Trusted(r.snapshots[i].row)
  }

  lemma ClaimStarts(before: map<DeviceKey, Device>, r: Rotation)
    requires Claims(before, r)
    ensures var key := DeviceKey(r.user, r.current);
            RotatedUpTo(before, before[key := Current(before[key], r)], r, 0)
  {
  }

  lemma RenewalExtends(before: map<DeviceKey, Device>, after: map<DeviceKey, Device>, r: Rotation, i: nat)
    requires Readable(before, r) && Claims(before, r) && i < |r.snapshots| && RotatedUpTo(before, after, r, i)
    requires r.snapshots[i].identifier != r.current && Trusted(r.snapshots[i].row)
    ensures var key := DeviceKey(r.user, r.snapshots[i].identifier);
            && key in after && after[key].token == r.snapshots[i].row.token
            && DeviceKey(r.user, r.current) in after && after[DeviceKey(r.user, r.current)].token == Some(r.token)
            && RotatedUpTo(before, after[key := Renewed(after[key], r.snapshots[i], r)], r, i + 1)
  {
    hide Trusted, Renewed;
  }

  lemma SkippingExtends(before: map<DeviceKey, Device>, after: map<DeviceKey, Device>, r: Rotation, i: nat)
    requires Claims(before, r) && i < |r.snapshots| && RotatedUpTo(before, after, r, i)
    requires r.snapshots[i].identifier == r.current || !Trusted(r.snapshots[i].row)
    ensures RotatedUpTo(before, after, r, i + 1)
  {
  }

  class Database {
    var devices: map<DeviceKey, Device>

    constructor (devices: map<DeviceKey, Device>)
      ensures this.devices == devices
    {
      this.devices := devices;
    }

    method ClaimCurrent(r: Rotation) returns (claimed: bool)
      modifies this`devices
      ensures claimed <==> Claims(old(devices), r)
      ensures devices == if claimed then old(devices)[DeviceKey(r.user, r.current) :=
                                          Current(old(devices)[DeviceKey(r.user, r.current)], r)]
                         else old(devices)
    {
      var key := DeviceKey(r.user, r.current);
      claimed := key in devices && Unchanged(devices, r);
      if claimed {
        devices := devices[key := Current(devices[key], r)];
      }
    }

    /** The update of one other device, if its token is the one read and the claim went through. */
    method RenewDevice(r: Rotation, snap: Snapshot)
      modifies this`devices
      ensures var key, current := DeviceKey(r.user, snap.identifier), DeviceKey(r.user, r.current);
              devices ==
              if && key in old(devices) && old(devices)[key].token == snap.row.token
                 && current in old(devices) && old(devices)[current].token == Some(r.token)
              then old(devices)[key := Renewed(old(devices)[key], snap, r)]
              else old(devices)
    {
      var key, current := DeviceKey(r.user, snap.identifier), DeviceKey(r.user, r.current);
      if key in devices && devices[key].token == snap.row.token
         && current in devices && devices[current].token == Some(r.token) {
        devices := devices[key := Renewed(devices[key], snap, r)];
      }
    }

    /** All of it or nothing. */
    method UpdateDevicesTrust(r: Rotation) returns (outcome: Outcome)
      requires Readable(devices, r)
      modifies this`devices
      ensures outcome == if Precheck(r) != Rotated then Precheck(r) else if Claims(old(devices), r) then Rotated else Conflict
      ensures outcome == Rotated ==> Claims(old(devices), r) && RotatedUpTo(old(devices), devices, r, |r.snapshots|)
      ensures outcome != Rotated ==> devices == old(devices)
    {
      hide Precheck, Renewed, Current, Trusted, RotatedUpTo;
      outcome := Precheck(r);
      if outcome != Rotated {
        return;
      }
      ghost var before := devices;
      var claimed := ClaimCurrent(r);
      outcome := if claimed then Rotated else Conflict;
      if claimed {
        ClaimStarts(before, r);
      }
      var i := 0;
      while i < |r.snapshots|
        invariant 0 <= i <= |r.snapshots|
        invariant !claimed ==> devices == before
        invariant claimed ==> RotatedUpTo(before, devices, r, i)
      {
        if r.snapshots[i].identifier != r.current && Trusted(r.snapshots[i].row) {
          if claimed {
            RenewalExtends(before, devices, r, i);
          }
          RenewDevice(r, r.snapshots[i]);
        } else if claimed {
          SkippingExtends(before, devices, r, i);
        }
        i := i + 1;
      }
    }
  }

  /** A trusted device that was read ends with new keys around the private key that was read, or with none. */
  lemma NewKeysOrNone(before: map<DeviceKey, Device>, after: map<DeviceKey, Device>, r: Rotation, snap: Snapshot)
    requires Claims(before, r) && RotatedUpTo(before, after, r, |r.snapshots|)
    requires snap in r.snapshots && snap.identifier != r.current && Trusted(snap.row)
    ensures var key := DeviceKey(r.user, snap.identifier);
            && key in after
            && if snap.row.id in r.updates then
                 && after[key].userKey == Some(r.updates[snap.row.id].userKey)
                 && after[key].publicKey == Some(r.updates[snap.row.id].publicKey)
                 && after[key].privateKey == snap.row.privateKey
                 && Trusted(after[key])
               else after[key].userKey == None && after[key].publicKey == None && after[key].privateKey == None
  {
  }

  /** Of two rotations that read the same devices, one at most goes through: the first changes a token the other checks. */
  lemma OneRotationPerRead(before: map<DeviceKey, Device>, after: map<DeviceKey, Device>, r: Rotation, other: Rotation)
    requires Readable(before, r) && Claims(before, r) && RotatedUpTo(before, after, r, |r.snapshots|)
    requires other.user == r.user && other.snapshots == r.snapshots && Precheck(r) == Rotated
    ensures !Claims(after, other)
  {
  }

  // ---------------------------------------------------------------------------------------
  // When it goes through and what it leaves
  // ---------------------------------------------------------------------------------------

  predicate WasRead(r: Rotation, identifier: Id) {
    exists s :: s in r.snapshots && s.identifier == identifier
  }

  predicate UpdatesDevice(r: Rotation, identifier: Id) {
    exists s :: s in r.snapshots && s.identifier == identifier && s.row.id in r.updates
  }

  predicate UpdatesUnread(r: Rotation) {
    exists id :: id in r.updates && forall s :: s in r.snapshots ==> s.row.id != id
  }

  /** What is refused before anything is written, and why. */
  lemma PrecheckTells(r: Rotation)
    ensures Precheck(r) == DeviceNotFound <==>
              !WasRead(r, r.current) || (!UpdatesDevice(r, r.current) && UpdatesUnread(r))
    ensures Precheck(r) == BadRequest <==> WasRead(r, r.current) && UpdatesDevice(r, r.current)
    ensures Precheck(r) == Rotated <==> WasRead(r, r.current) && !UpdatesDevice(r, r.current) && !UpdatesUnread(r)
    ensures Precheck(r) != Conflict
  {
    assert (exists id :: id in r.updates && !(exists s :: s in r.snapshots && s.row.id == id)) <==> UpdatesUnread(r);
  }

  /** The rotation finds its own device and every device it read with the token it read. */
  lemma ClaimsIff(devices: map<DeviceKey, Device>, r: Rotation)
    ensures Claims(devices, r) <==>
              && DeviceKey(r.user, r.current) in devices
              && forall i :: 0 <= i < |r.snapshots| ==>
                   && DeviceKey(r.user, r.snapshots[i].identifier) in devices
                   && devices[DeviceKey(r.user, r.snapshots[i].identifier)].token == r.snapshots[i].row.token
  {
    if Claims(devices, r) {
      forall i | 0 <= i < |r.snapshots|
        ensures DeviceKey(r.user, r.snapshots[i].identifier) in devices
        ensures devices[DeviceKey(r.user, r.snapshots[i].identifier)].token == r.snapshots[i].row.token
      {
        assert r.snapshots[i] in r.snapshots;
      }
    }
  }

  /** Written by this rotation: its token, and a time later than before and no earlier than its clock. */
  predicate Marked(before: Device, after: Device, r: Rotation) {
    after.id == before.id && after.token == Some(r.token) && after.updatedAt > before.updatedAt && after.updatedAt >= r.timestamp
  }

  /**
   The whole outcome, device by device: the current one has its new keys around the private key it had,
   the other trusted ones are marked, and every device that was untrusted or not read is as it was.
   */
  lemma RotationLeaves(before: map<DeviceKey, Device>, after: map<DeviceKey, Device>, r: Rotation)
    requires Claims(before, r) && RotatedUpTo(before, after, r, |r.snapshots|)
    ensures after.Keys == before.Keys
    ensures var key := DeviceKey(r.user, r.current);
            && Marked(before[key], after[key], r)
            && after[key].userKey == Some(r.keys.userKey) && after[key].publicKey == Some(r.keys.publicKey)
            && after[key].privateKey == before[key].privateKey
    ensures forall i :: 0 <= i < |r.snapshots| && r.snapshots[i].identifier != r.current ==>
              var snap, key := r.snapshots[i], DeviceKey(r.user, r.snapshots[i].identifier);
              key in before
              && (snap.row.userKey.Some? && snap.row.publicKey.Some? && snap.row.privateKey.Some? ==>
                    Marked(before[key], after[key], r))
    ensures forall key :: key in before && key.user != r.user ==> after[key] == before[key]
    ensures forall key :: key in before && key != DeviceKey(r.user, r.current)
                          && (forall i :: 0 <= i < |r.snapshots| && r.snapshots[i].identifier == key.identifier ==>
                                !(r.snapshots[i].row.userKey.Some? && r.snapshots[i].row.publicKey.Some?
                                  && r.snapshots[i].row.privateKey.Some?)) ==>
              after[key] == before[key]
  {
  }
}
