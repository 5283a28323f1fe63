/**
 From the device records to the tunnel: the helper reads its authorizations from the record
 file of the core, so a revocation that was saved reaches WireGuard at the next tick.
 */
module Revocation {
  import opened Wrappers
  import opened Devices
  import Kernel
  import opened Policy
  import opened VpnManager

  /** The devices that may hold a tunnel. */
  function ActiveIds(devices: Devices.Table): set<string> { set id | id in devices && !devices[id].revoked }

  /**
   Read the record file as the core itself would, and keep the active devices; None when it
   cannot be read.
   */
  method Authorizations(identify: Bytes -> string, file: Option<seq<Device>>) returns (auth: Snapshot)
    ensures auth.Some? <==> file.None? || Accepted(identify, file.value)
    ensures auth.Some? && file.None? ==> auth.value == {}
    ensures auth.Some? && file.Some? ==> forall t :: Devices.Lists(file.value, t) ==> auth.value == ActiveIds(t)
  {
    hide RecordOk, Devices.Lists;
    var store := DeviceStore.Open(identify, true, file);
    if store == null { return None; }
    var record := store.List();
    var active := ActiveAmong(record, store.devices);
    auth := Some(active);
    if file.Some? {
      forall t | Devices.Lists(file.value, t) ensures active == ActiveIds(t) {
        ListedIsUnique(file.value, t, store.devices);
      }
    }
  }

  method ActiveAmong(record: seq<Device>, ghost devices: Devices.Table) returns (active: set<string>)
    requires Devices.Lists(record, devices)
    ensures active == ActiveIds(devices)
  {
    active := {};
    for i := 0 to |record|
      invariant forall id :: id in active <==> exists k :: 0 <= k < i && record[k].id == id && !record[k].revoked
    {
      if !record[i].revoked { active := active + {record[i].id}; }
    }
  }

  /**
   Once a revocation is on record, the layers after any unbroken tick, whatever happened in
   between, hold nothing of the device: no record, and no WireGuard peer.
   */
  lemma RevokedIsOut(revoked: Devices.Table, later: Devices.Table, id: string,
                     c: Config, others: seq<Kernel.PolicyRule>, before: Layers, turn: Turn)
    requires id in revoked && revoked[id].revoked && OnlyAdvances(revoked, later)
    requires Follows(c, others, before, turn) && Intact(turn.reply) && turn.event == Tick(Some(ActiveIds(later)))
    ensures id !in turn.layers.table
    ensures forall k :: k in turn.layers.state.wg ==> turn.layers.state.wg[k].peer.deviceId != id
  {
    hide TableMoves, Equal, FileLists;
    assert later[id].revoked;
    assert Inside(turn.layers, Some(ActiveIds(later)));
  }

  /**
   A revocation and the next tick, end to end: the device is out of table and WireGuard. Where
   the tick fails the service stops and goes down, and WireGuard has no peers at all, unless
   the deletion of the interface failed as well.
   */
  method RevokeAndTick(store: DeviceStore, manager: Manager, id: string) returns (revoked: bool, stopped: bool)
    requires store.Valid() && store.onDisk && manager.Valid()
    modifies store, manager`peers, manager.backend, manager.backend.machine, manager.disk
    ensures store.Valid() && (!stopped ==> manager.Valid())
    ensures revoked ==> id in store.devices && store.devices[id].revoked
    ensures revoked && !stopped ==> id !in manager.peers
    ensures revoked && !stopped ==> Banished(manager.backend.machine.state, id)
    ensures stopped ==> manager.Gone()
    ensures revoked ==> Banished(manager.backend.machine.state, id) ||
                        manager.backend.machine.deleteFaults > old(manager.backend.machine.deleteFaults)
  {
    hide Manager.Valid, Devices.Lists, Holds, Accepted, TableMoves, Equal, FileLists;
    stopped := false;
    revoked := store.Revoke(id);
    if !revoked { return; }
    StoredIsAccepted(store);
    var auth := Authorizations(store.identify, store.file);
    ghost var before := manager.Now();
    var reply := manager.Handle(Tick(auth));
    stopped := !Intact(reply);
    if stopped { var _ := manager.GoDown(); }
  }

  /** No WireGuard peer is the device's. */
  ghost predicate Banished(s: Kernel.KState, id: string) { forall k :: k in s.wg ==> s.wg[k].peer.deviceId != id }

  /** The file of a store with a record is one that a start accepts. */
  lemma StoredIsAccepted(store: DeviceStore)
    requires store.Valid() && store.onDisk && store.devices != map[]
    ensures store.file.Some? && Accepted(store.identify, store.file.value) && Devices.Lists(store.file.value, store.devices)
  {
    hide RecordOk;
  }
}
