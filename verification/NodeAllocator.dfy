/** The device manager of one node. */
module NodeAllocator {
  import opened Wrappers
  import opened Decimal
  import opened Devices
  import opened DeviceInfos
  import opened Tables

  class DeviceManager {
    var devicesByDeviceID: map<string, DeviceInfo>
    var devicesByVolumeName: map<string, DeviceInfo>
    ghost var Repr: set<DeviceInfo>

    ghost predicate Valid()
      reads this, Repr
    {
      && (forall i | i in devicesByDeviceID :: devicesByDeviceID[i] in Repr)
      && (forall v | v in devicesByVolumeName :: devicesByVolumeName[v] in Repr)
    }

    ghost function Abs(): Manager<DeviceInfo>
      reads this, Repr
    {
      Manager(devicesByDeviceID, devicesByVolumeName, map d | d in Repr :: d.Value())
    }

    constructor (devices: map<string, DeviceInfo>)
      ensures Valid() && Repr == devices.Values
      ensures devicesByDeviceID == devices && devicesByVolumeName == map[]
    {
      devicesByDeviceID, devicesByVolumeName, Repr := devices, map[], devices.Values;
    }

    method GetDevice(id: string) returns (device: DeviceInfo?)
      requires Valid()
      ensures device == if id in devicesByDeviceID then devicesByDeviceID[id] else null
    {
      device := if id in devicesByDeviceID then devicesByDeviceID[id] else null;
    }

    method GetDeviceForVolume(name: string) returns (device: DeviceInfo?)
      requires Valid()
      ensures device == if name in devicesByVolumeName then devicesByVolumeName[name] else null
    {
      device := if name in devicesByVolumeName then devicesByVolumeName[name] else null;
    }

    method Allocate(id: string, name: string) returns (ok: bool)
      requires Valid()
      modifies this`devicesByVolumeName, Repr`Volumes
      ensures Valid()
      ensures ok <==> id in devicesByDeviceID && old(name !in devicesByDeviceID[id].Volumes)
      ensures ok ==> devicesByVolumeName == old(devicesByVolumeName)[name := devicesByDeviceID[id]]
      ensures ok ==> devicesByDeviceID[id].Volumes == old(devicesByDeviceID[id].Volumes)[name := Nil]
      ensures ok == Tables.Allocate(old(Abs()), id, name).Some?
      ensures Abs() == if ok then Tables.Allocate(old(Abs()), id, name).value else old(Abs())
    {
      var device := GetDevice(id);
      if device == null {
        return false;
      }
      if name in device.Volumes {
        return false;
      }
      device.Volumes := device.Volumes[name := Nil];
      devicesByVolumeName := devicesByVolumeName[name := device];
      ok := true;
    }

    method DeAllocate(name: string) returns (ok: bool)
      requires Valid()
      modifies this`devicesByVolumeName, Repr`Volumes
      ensures Valid()
      ensures ok <==> name in old(devicesByVolumeName)
      ensures ok ==> devicesByVolumeName == old(devicesByVolumeName) - {name}
      ensures ok ==> old(devicesByVolumeName)[name].Volumes == old(devicesByVolumeName[name].Volumes) - {name}
      ensures ok == Tables.DeAllocate(old(Abs()), name).Some?
      ensures Abs() == if ok then Tables.DeAllocate(old(Abs()), name).value else old(Abs())
    {
      var device := GetDeviceForVolume(name);
      if device == null {
        return false;
      }
      device.Volumes := device.Volumes - {name};
      devicesByVolumeName := devicesByVolumeName - {name};
      ok := true;
    }
  }

  function ReportOf(d: Device): Report {
    Report(d.id, d.size, d.params)
  }

  /** entries lists every device of the manager once, in the order of their keys given. */
  ghost predicate Reports<R>(g: Manager<R>, order: seq<string>, entries: seq<Report>)
  {
    && Distinct(order) && |entries| == |order|
    && (forall i :: i in order <==> i in g.byID)
    && (forall k | 0 <= k < |order| :: order[k] in g.byID && g.byID[order[k]] in g.store
          && entries[k] == ReportOf(g.store[g.byID[order[k]]]))
  }

  lemma {:induction false} DistinctSize<T>(s: seq<T>)
    requires Distinct(s)
    ensures |set x | x in s| == |s|
  {
    if |s| > 0 {
      var last := |s| - 1;
      DistinctSize(s[..last]);
      assert s == s[..last] + [s[last]];
      assert (set x | x in s) == (set x | x in s[..last]) + {s[last]};
    }
  }

  /** As many entries as devices, and for each device one with its id, its size and its parameters. */
  lemma ReportsEach<R>(g: Manager<R>, order: seq<string>, entries: seq<Report>)
    requires ManagerRefsOk(g) && Reports(g, order, entries)
    ensures |entries| == |g.byID|
    ensures forall i | i in g.byID ::
              exists k :: 0 <= k < |entries| && entries[k].id == g.store[g.byID[i]].id
                          && entries[k].size == g.store[g.byID[i]].size
                               && entries[k].params == g.store[g.byID[i]].params
  {
    DistinctSize(order);
    assert (set i | i in order) == g.byID.Keys;
    forall i | i in g.byID
      ensures exists k :: 0 <= k < |entries| && entries[k].id == g.store[g.byID[i]].id
                          && entries[k].size == g.store[g.byID[i]].size
                               && entries[k].params == g.store[g.byID[i]].params
    {
      var k :| 0 <= k < |order| && order[k] == i;
      assert entries[k] == ReportOf(g.store[g.byID[i]]);
    }
  }

  // ----- discovery

  /** Each type manager has just allocated the objects it reports: no two are the same. */
  ghost predicate AllDifferent(found: map<string, Option<seq<DeviceInfo>>>) {
    && (forall k | k in found && found[k].Some? :: Distinct(found[k].value))
    && (forall k, l | k in found && l in found && k != l && found[k].Some? && found[l].Some? ::
          forall d | d in found[k].value :: d !in found[l].value)
  }

  ghost function Objects(found: map<string, Option<seq<DeviceInfo>>>, kinds: set<string>): set<DeviceInfo> {
    set k, d | k in kinds && k in found && found[k].Some? && d in found[k].value :: d
  }

  /** "<node>_0" .. "<node>_(n-1)". */
  function NodeIDs(node: string, n: nat): seq<string> {
    seq(n, k requires 0 <= k < n => DeviceId(node, k))
  }

  lemma NodeIDsNext(node: string, n: nat)
    ensures NodeIDs(node, n + 1) == NodeIDs(node, n) + [DeviceId(node, n)]
    ensures DeviceId(node, n) !in NodeIDs(node, n)
  {
    if DeviceId(node, n) in NodeIDs(node, n) {
      var k :| 0 <= k < n && NodeIDs(node, n)[k] == DeviceId(node, n);
      DeviceIdInjective(node, k, node, n);
    }
  }

  /** devices is keyed exactly by the ids: the k-th object of order sits under the k-th id, and no
      object sits under two keys. */
  ghost predicate Keyed(devices: map<string, DeviceInfo>, ids: seq<string>, order: seq<DeviceInfo>) {
    && |devices| == |ids| == |order|
    && (forall i :: i in devices <==> i in ids)
    && (forall k | 0 <= k < |ids| :: ids[k] in devices && devices[ids[k]] == order[k])
    && Distinct(order)
  }

  lemma KeyedNext(devices: map<string, DeviceInfo>, ids: seq<string>, order: seq<DeviceInfo>, id: string, d: DeviceInfo)
    requires Keyed(devices, ids, order) && d !in order && id !in ids
    ensures Keyed(devices[id := d], ids + [id], order + [d])
  {
    var devices', ids', order' := devices[id := d], ids + [id], order + [d];
    assert devices'.Keys == devices.Keys + {id};
    forall i ensures i in devices' <==> i in ids' {
      assert i in ids' <==> i in ids || i == id;
    }
    forall k | 0 <= k < |ids'| ensures ids'[k] in devices' && devices'[ids'[k]] == order'[k] {
      assert k < |ids| ==> ids[k] in ids && ids'[k] == ids[k];
    }
    assert Distinct(order');
  }

  /** Every device carries the id it is keyed by. */
  ghost predicate Labelled(devices: map<string, DeviceInfo>)
    reads devices.Values
  {
    forall i | i in devices :: devices[i].ID == i
  }

  lemma KindIsNew(found: map<string, Option<seq<DeviceInfo>>>, done: set<string>, kind: string)
    requires AllDifferent(found) && kind in found && found[kind].Some? && kind !in done
    ensures Distinct(found[kind].value)
    ensures forall d | d in found[kind].value :: d in Objects(found, found.Keys) && d !in Objects(found, done)
  {
  }

  /** order holds exactly what these type managers report. */
  ghost predicate Collected(found: map<string, Option<seq<DeviceInfo>>>, kinds: set<string>, order: seq<DeviceInfo>) {
    (set d | d in order) == Objects(found, kinds)
  }

  lemma CollectedNext(found: map<string, Option<seq<DeviceInfo>>>, done: set<string>, kind: string,
                      order: seq<DeviceInfo>)
    requires AllDifferent(found) && kind in found && found[kind].Some? && kind !in done && Collected(found, done, order)
    ensures Collected(found, done + {kind}, order + found[kind].value)
    ensures Distinct(found[kind].value)
    ensures forall d | d in found[kind].value :: d in Objects(found, found.Keys) && d !in order
  {
    KindIsNew(found, done, kind);
    var order' := order + found[kind].value;
    assert forall d :: d in order' <==> d in order || d in found[kind].value;
    assert Objects(found, done + {kind}) == Objects(found, done) + set d | d in found[kind].value;
    forall d | d in found[kind].value ensures d !in order {
      assert d !in Objects(found, done);
    }
  }

  lemma MoveOver<T>(done: set<T>, rest: set<T>, x: T)
    requires x in rest && done !! rest
    ensures done + {x} !! rest - {x} && (done + {x}) + (rest - {x}) == done + rest
  {
  }

  /** Every object reported by these type managers has got an id, in the order given, and no other has. */
  ghost predicate Merged(found: map<string, Option<seq<DeviceInfo>>>, kinds: set<string>, node: string,
                         dim: map<string, DeviceInfo>, order: seq<DeviceInfo>)
    reads dim.Values
  {
    Collected(found, kinds, order) && Keyed(dim, NodeIDs(node, |order|), order) && Labelled(dim)
  }

  /** The merge loop of discoverDevices, over the type managers in an arbitrary order. found gives
      what each of them reports; None is its error. */
  method DiscoverDevices(node: string, found: map<string, Option<seq<DeviceInfo>>>)
    returns (devices: Option<map<string, DeviceInfo>>, ghost order: seq<DeviceInfo>)
    requires AllDifferent(found)
    modifies Objects(found, found.Keys)`ID
    ensures devices.None? <==> exists k :: k in found && found[k].None?
    ensures devices.Some? ==> Merged(found, found.Keys, node, devices.value, order)
  {
    var dim: map<string, DeviceInfo> := map[];
    var rest := found.Keys;
    order := [];
    ghost var done: set<string> := {};
    while rest != {}
      invariant done !! rest && done + rest == found.Keys
      invariant forall k | k in done :: found[k].Some?
      invariant Merged(found, done, node, dim, order)
    {
      var kind :| kind in rest;
      if found[kind].None? {
        devices := None;
        return;
      }
      dim := AddKind(dim, node, found, kind, done, order);
      order := order + found[kind].value;
      MoveOver(done, rest, kind);
      rest, done := rest - {kind}, done + {kind};
    }
    assert done == found.Keys;
    devices := Some(dim);
  }

  /** One type manager's turn in that loop. */
  method AddKind(dim: map<string, DeviceInfo>, node: string, found: map<string, Option<seq<DeviceInfo>>>, kind: string,
                 ghost done: set<string>, ghost order: seq<DeviceInfo>)
    returns (dim': map<string, DeviceInfo>)
    requires AllDifferent(found) && kind in found && found[kind].Some? && kind !in done
    requires Merged(found, done, node, dim, order)
    modifies Objects(found, found.Keys)`ID
    ensures Merged(found, done + {kind}, node, dim', order + found[kind].value)
  {
    CollectedNext(found, done, kind, order);
    dim' := AddAll(dim, node, found[kind].value, order);
  }

  /** The inner loop: the devices of one type manager, in the order it reports them. */
  method AddAll(dim: map<string, DeviceInfo>, node: string, infos: seq<DeviceInfo>, ghost order: seq<DeviceInfo>)
    returns (dim': map<string, DeviceInfo>)
    requires Keyed(dim, NodeIDs(node, |order|), order) && Labelled(dim)
    requires Distinct(infos) && forall d | d in infos :: d !in order
    modifies infos`ID
    ensures Keyed(dim', NodeIDs(node, |order + infos|), order + infos)
    ensures Labelled(dim')
  {
    dim' := dim;
    ghost var added, ids := order, NodeIDs(node, |order|);
    for i := 0 to |infos|
      invariant added == order + infos[..i] && ids == NodeIDs(node, |added|)
      invariant Keyed(dim', ids, added)
      invariant Labelled(dim')
    {
      NodeIDsNext(node, |added|);
      assert infos[i] !in added;
      var id := DeviceId(node, |dim'|);
      KeyedNext(dim', ids, added, id, infos[i]);
      dim' := AddDeviceInfo(dim', id, infos[i]);
      added, ids := added + [infos[i]], ids + [id];
      TakeNext(order, infos, i);
    }
    assert infos[..|infos|] == infos;
  }

  lemma TakeNext<T>(prefix: seq<T>, s: seq<T>, i: nat)
    requires i < |s|
    ensures prefix + s[..i + 1] == prefix + s[..i] + [s[i]]
  {
  }

  method AddDeviceInfo(dim: map<string, DeviceInfo>, id: string, d: DeviceInfo) returns (dim': map<string, DeviceInfo>)
    modifies d`ID
    ensures d.ID == id && dim' == dim[id := d]
  {
    d.ID := id;
    dim' := dim[id := d];
  }

  ghost predicate NoVolumes(ds: set<DeviceInfo>)
    reads ds
  {
    forall d | d in ds :: d.Volumes == map[]
  }

  /** The package's one device manager, if it has been filled yet. */
  class DeviceManagers {
    var devManager: DeviceManager?

    /** NewDeviceManager: discovers the devices unless an earlier call has, and fails, to be tried again,
        when some type manager fails. Every device reported gets an id of its own with the node's name
        in front, and none is lost. */
    method NewDeviceManager(node: string, found: map<string, Option<seq<DeviceInfo>>>) returns (dm: DeviceManager?)
      requires AllDifferent(found) && NoVolumes(Objects(found, found.Keys))
      modifies this`devManager, Objects(found, found.Keys)`ID
      ensures devManager == dm
      ensures old(devManager) != null ==> dm == old(devManager) && unchanged(Objects(found, found.Keys))
      ensures old(devManager) == null ==> (dm == null <==> exists k :: k in found && found[k].None?)
      ensures old(devManager) == null && dm != null ==>
                && fresh(dm) && dm.Valid() && Booted(dm.Abs(), node)
                && dm.Repr == dm.devicesByDeviceID.Values == Objects(found, found.Keys)
    {
      if devManager == null {
        devManager := Discover(node, found);
      }
      dm := devManager;
    }
  }

  method Discover(node: string, found: map<string, Option<seq<DeviceInfo>>>) returns (dm: DeviceManager?)
    requires AllDifferent(found) && NoVolumes(Objects(found, found.Keys))
    modifies Objects(found, found.Keys)`ID
    ensures dm == null <==> exists k :: k in found && found[k].None?
    ensures dm != null ==> fresh(dm) && dm.Valid() && Booted(dm.Abs(), node)
    ensures dm != null ==> dm.Repr == dm.devicesByDeviceID.Values == Objects(found, found.Keys)
  {
    var devices, order := DiscoverDevices(node, found);
    if devices.None? {
      return null;
    }
    dm := new DeviceManager(devices.value);
    KeyedValues(devices.value, node, order);
    assert dm.Repr == Objects(found, found.Keys);
  }

  lemma KeyedValues(devices: map<string, DeviceInfo>, node: string, order: seq<DeviceInfo>)
    requires Keyed(devices, NodeIDs(node, |order|), order)
    ensures devices.Values == set d | d in order
    ensures forall i | i in devices :: NodeOf(i) == node
    ensures forall i, j | i in devices && j in devices && i != j :: devices[i] != devices[j]
  {
    var ids := NodeIDs(node, |order|);
    forall i | i in devices
      ensures NodeOf(i) == node
      ensures exists k :: 0 <= k < |order| && ids[k] == i && devices[i] == order[k]
    {
      var k :| 0 <= k < |order| && ids[k] == i;
      NodeOfDeviceId(node, k);
    }
  }
}
