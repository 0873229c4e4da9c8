/** The master controller: its three tables over shared DeviceInfo objects. Every method but
    OnNodeDeleted and the first read of DeleteVolume runs under the master mutex; here one call runs
    at a time, and System.dfy interleaves the same state changes. */
module MasterAllocator {
  import opened Wrappers
  import opened Machine
  import opened Devices
  import opened DeviceInfos
  import opened Tables
  import Pagination
  import Registry

  /** One entry of a node's ListVolumes answer; the volume of an entry may be missing. */
  function Present(entries: seq<Option<Report>>): seq<Report> {
    if |entries| == 0 then []
    else
      var k := |entries| - 1;
      Present(entries[..k]) + match entries[k] case Some(r) => [r] case None => []
  }

  lemma PresentNext(entries: seq<Option<Report>>, i: nat)
    requires i < |entries|
    ensures Present(entries[..i + 1]) == Present(entries[..i]) + if entries[i].Some? then [entries[i].value] else []
  {
    assert entries[..i + 1][..i] == entries[..i];
  }

  /** The entries with a volume, in order: those without one count for nothing. */
  lemma {:induction false} PresentJoins(entries: seq<Option<Report>>, more: seq<Option<Report>>)
    ensures Present(entries + more) == Present(entries) + Present(more)
    ensures Present([]) == [] && Present([None]) == [] && forall r: Report :: Present([Some(r)]) == [r]
  {
    assert forall e: Option<Report> :: [e][..0] == [];
    if |more| == 0 {
      assert entries + more == entries;
    } else {
      var last := |more| - 1;
      assert (entries + more)[..|entries| + last] == entries + more[..last];
      PresentJoins(entries, more[..last]);
    }
  }

  ghost function WithDevice<R>(m: Master<R>, node: string, vol: Report, d: R): Master<R>
    requires node in m.byNode
  {
    Master(m.byVolume, m.byID[vol.id := d], m.byNode[node := m.byNode[node] + [d]], m.store[d := NewDevice(vol)])
  }

  ghost function WithDevices<R>(m: Master<R>, node: string, reports: seq<Report>, refs: seq<R>): Master<R>
    requires |reports| == |refs|
  {
    Master(m.byVolume, PutIDs(m.byID, reports, refs), m.byNode[node := refs], PutDevices(m.store, reports, refs))
  }

  lemma WithNext<R>(m: Master<R>, node: string, reports: seq<Report>, refs: seq<R>, r: Report, d: R)
    requires |reports| == |refs|
    ensures WithDevices(m, node, reports + [r], refs + [d]) ==
              WithDevice(WithDevices(m, node, reports, refs), node, r, d)
  {
    assert (reports + [r])[..|refs|] == reports;
    assert (refs + [d])[..|refs|] == refs;
  }

  /** The nodes named by the request's topology: Preferred, or Requisite when Preferred is nil. */
  datatype Topology = Unrestricted | Restricted(preferred: Option<seq<Params>>, requisite: Option<seq<Params>>)

  function Requested(t: Topology, key: string): seq<string> {
    match t
    case Unrestricted => []
    case Restricted(preferred, requisite) =>
      var wanted := if preferred.Some? then preferred.value else if requisite.Some? then requisite.value else [];
      seq(|wanted|, k requires 0 <= k < |wanted| => if key in wanted[k] then wanted[k][key] else "")
  }

  datatype CreateRequest = CreateRequest(name: string, hasCapabilities: bool, size: int, topology: Topology,
                                         params: Params)

  datatype CreateReply = Created(volume: Volume) | Refused(code: Code)

  class MasterController {
    const rs: Registry.RegistryServer
    const parse: Parser
    const topologyKey: string
    var devicesByVolumeName: map<string, DeviceInfo>
    var devicesByIDs: map<string, DeviceInfo>
    var devicesByNodes: map<string, seq<DeviceInfo>>
    ghost var Repr: set<DeviceInfo>

    ghost predicate Valid()
      reads this, Repr
    {
      && RefsOk(Abs())
      && forall d | d in Repr :: d.NoNil()
    }

    ghost function Abs(): Master<DeviceInfo>
      reads this, Repr
    {
      Master(devicesByVolumeName, devicesByIDs, devicesByNodes, map d | d in Repr :: d.Value())
    }

    /** The new controller listens to the registry. */
    constructor (rs: Registry.RegistryServer, parse: Parser, topologyKey: string)
      modifies rs`listeners
      ensures Valid() && Abs() == Master(map[], map[], map[], map[])
      ensures this.rs == rs && this.parse == parse && this.topologyKey == topologyKey
      ensures rs.listeners == old(rs.listeners) + {Registry.MasterListener}
    {
      this.rs, this.parse, this.topologyKey := rs, parse, topologyKey;
      devicesByVolumeName, devicesByIDs, devicesByNodes, Repr := map[], map[], map[], {};
      new;
      rs.AddListener(Registry.MasterListener);
    }

    /** dials says which endpoints can be connected to; answer is what the node's ListVolumes returns,
        None when it fails. */
    method OnNodeAdded(node: string, dials: string -> bool, answer: Option<seq<Option<Report>>>)
      returns (ok: bool, ghost refs: seq<DeviceInfo>)
      requires Valid()
      modifies this`devicesByIDs, this`devicesByNodes, this`Repr
      ensures Valid()
      ensures ok <==> rs.Connects(node, dials) && answer.Some?
      ensures !ok ==> Abs() == old(Abs())
      ensures ok ==> |refs| == |Present(answer.value)| && FreshRefs(old(Abs()), refs)
      ensures ok ==> Abs() == AddNode(old(Abs()), node, Present(answer.value), refs)
      ensures ok ==> devicesByNodes == old(devicesByNodes)[node := refs]
      ensures ok ==> forall k | 0 <= k < |refs| ::
                var vol := Present(answer.value)[k];
                && refs[k].ID == vol.id && refs[k].Size == vol.size && refs[k].Parameters == vol.params
                && refs[k].Volumes == map[] && refs[k].Paths == []
    {
      refs := [];
      ok := rs.ConnectToNodeController(node, dials);
      if !ok {
        return;
      }
      if answer.None? {
        ok := false;
        return;
      }
      ForgetIDs(node);
      devicesByNodes := devicesByNodes[node := []];
      ghost var m, m' := old(Abs()), Abs();
      assert m'.store == m.store;
      refs := AddDevices(node, answer.value);
      assert m'.byNode[node := refs] == m.byNode[node := refs];
      assert Abs() == AddNode(old(Abs()), node, Present(answer.value), refs);
      AddNodeRefsOk(old(Abs()), node, Present(answer.value), refs);
      AddedContents(old(Abs()), Abs(), node, Present(answer.value), refs);
      ok := true;
    }

    lemma AddedContents(m: Master<DeviceInfo>, m': Master<DeviceInfo>, node: string, reports: seq<Report>,
                        refs: seq<DeviceInfo>)
      requires RefsOk(m) && |reports| == |refs| && FreshRefs(m, refs) && m' == AddNode(m, node, reports, refs)
      requires m' == Abs()
      ensures forall k | 0 <= k < |refs| :: refs[k].Value() == NewDevice(reports[k])
    {
      AddNodeStore(m, node, reports, refs);
      forall k | 0 <= k < |refs| ensures refs[k].Value() == NewDevice(reports[k]) {
        assert m'.store[refs[k]] == refs[k].Value();
      }
    }

    /** The second loop of OnNodeAdded. */
    method AddDevices(node: string, entries: seq<Option<Report>>) returns (ghost refs: seq<DeviceInfo>)
      requires node in devicesByNodes && devicesByNodes[node] == []
      requires forall d | d in Repr :: d.NoNil()
      modifies this`devicesByIDs, this`devicesByNodes, this`Repr
      ensures |refs| == |Present(entries)| && FreshRefs(old(Abs()), refs)
      ensures Abs() == WithDevices(old(Abs()), node, Present(entries), refs)
      ensures forall d | d in Repr :: d.NoNil()
    {
      ghost var m := old(Abs());
      ghost var reports: seq<Report> := [];
      refs := [];
      var i := 0;
      while i < |entries|
        invariant 0 <= i <= |entries| && reports == Present(entries[..i]) && |refs| == |reports|
        invariant Abs() == WithDevices(m, node, reports, refs)
        invariant FreshRefs(m, refs) && fresh(Repr - old(Repr))
        invariant forall k | 0 <= k < |refs| :: refs[k] in Repr
        invariant forall d | d in Repr :: d.NoNil()
        invariant old(Repr) <= Repr
      {
        PresentNext(entries, i);
        if entries[i].Some? {
          var device := AddDevice(node, entries[i].value);
          WithNext(m, node, reports, refs, entries[i].value, device);
          refs, reports := refs + [device], reports + [entries[i].value];
        }
        i := i + 1;
      }
      assert entries[..i] == entries;
    }

    /** The body of that loop. */
    method AddDevice(node: string, vol: Report) returns (device: DeviceInfo)
      requires node in devicesByNodes
      requires forall d | d in Repr :: d.NoNil()
      modifies this`devicesByIDs, this`devicesByNodes, this`Repr
      ensures fresh(device) && Repr == old(Repr) + {device}
      ensures Abs() == WithDevice(old(Abs()), node, vol, device)
      ensures forall d | d in Repr :: d.NoNil()
    {
      device := new DeviceInfo(vol.id, map[], [], vol.size, vol.params);
      devicesByNodes := devicesByNodes[node := devicesByNodes[node] + [device]];
      devicesByIDs := devicesByIDs[vol.id := device];
      Repr := Repr + {device};
    }

    /** The first loop of OnNodeAdded. */
    method ForgetIDs(node: string)
      requires Valid()
      modifies this`devicesByIDs
      ensures devicesByIDs == old(devicesByIDs) - ListedIDs(old(Abs()), node)
    {
      var devices := if node in devicesByNodes then devicesByNodes[node] else [];
      var i := 0;
      while i < |devices|
        invariant 0 <= i <= |devices|
        invariant devicesByIDs == old(devicesByIDs) - set k | 0 <= k < i :: devices[k].ID
      {
        devicesByIDs := devicesByIDs - {devices[i].ID};
        i := i + 1;
      }
      assert ListedIDs(old(Abs()), node) == set k | 0 <= k < |devices| :: devices[k].ID;
    }

    method OnNodeDeleted(node: string)
      requires Valid()
      modifies this`devicesByNodes
      ensures Valid()
      ensures Abs() == RemoveNode(old(Abs()), node)
      ensures devicesByNodes.Keys == old(devicesByNodes).Keys - {node}
      ensures forall n | n in devicesByNodes :: devicesByNodes[n] == old(devicesByNodes)[n]
      ensures devicesByIDs == old(devicesByIDs) && devicesByVolumeName == old(devicesByVolumeName)
      ensures Abs().store == old(Abs()).store
    {
      if node in devicesByNodes {
        devicesByNodes := devicesByNodes - {node};
      }
    }

    method FindDeviceNode(id: string) returns (node: Option<string>)
      requires Valid()
      ensures RouteOutcome(Abs(), id, node)
    {
      var rest := devicesByNodes.Keys;
      while rest != {}
        invariant rest <= devicesByNodes.Keys
        invariant forall n | n in devicesByNodes && n !in rest :: id !in ListedIDs(Abs(), n)
      {
        var n :| n in rest;
        var devices := devicesByNodes[n];
        var i := 0;
        while i < |devices|
          invariant 0 <= i <= |devices|
          invariant forall k | 0 <= k < i :: devices[k].ID != id
        {
          if devices[i].ID == id {
            return Some(n);
          }
          i := i + 1;
        }
        rest := rest - {n};
      }
      node := None;
    }

    /** The inner loop of findDevice, over the devices of one node. With no topology requested the
        first match ends the search. */
    method ScanNode(params: Params, devices: seq<DeviceInfo>, restricted: bool, ghost codes: seq<Code>)
      returns (chosen: DeviceInfo?, exhausted: bool, ghost at: int)
      requires |codes| == |devices|
      requires forall k | 0 <= k < |devices| ::
                 devices[k].NoNil() && codes[k] == Devices.Match(parse, devices[k].Value(), params)
      ensures chosen == null ==> OK !in codes
      ensures chosen != null ==> (if restricted then LastOk(codes, at) else FirstOk(codes, at)) && devices[at] == chosen
      ensures chosen == null || restricted ==> (exhausted <==> ResourceExhausted in codes)
    {
      chosen, exhausted, at := null, false, -1;
      for i := 0 to |devices|
        invariant ScannedTo(codes, i, restricted, at, exhausted)
        invariant if at >= 0 then chosen == devices[at] else chosen == null
      {
        var code := devices[i].Match(parse, params);
        ScanNext(codes, i, restricted, at, exhausted);
        if code == OK {
          chosen, at := devices[i], i;
          if !restricted {
            return;
          }
        } else if code == ResourceExhausted {
          exhausted := true;
        }
      }
      assert codes[..|devices|] == codes;
    }

    method FindDevice(params: Params, requested: seq<string>) returns (found: FindResult<DeviceInfo>)
      requires Valid()
      ensures FindOutcome(parse, Abs(), params, requested, found)
    {
      ghost var m := Abs();
      var first, chosenDevices, exhaustedDevices := ScanNodes(params, |requested| > 0, m);
      if first.Some? {
        return first.value;
      }
      found := Choose(requested, chosenDevices, exhaustedDevices);
      ChoiceOutcome(parse, m, params, requested, chosenDevices, exhaustedDevices, found);
    }

    /** The outer loop, over the nodes in an arbitrary order. */
    method ScanNodes(params: Params, restricted: bool, ghost m: Master<DeviceInfo>)
      returns (first: Option<FindResult<DeviceInfo>>, chosenDevices: map<string, DeviceInfo>,
          exhaustedDevices: set<string>)
      requires Valid() && m == Abs()
      ensures match first
              case Some(f) => !restricted && f.Found? && FirstMatch(parse, m, params, f.node, f.device)
              case None =>
                && Scanned(parse, m, params, m.byNode.Keys, chosenDevices, exhaustedDevices)
                && (!restricted ==> chosenDevices == map[])
    {
      chosenDevices, exhaustedDevices := map[], {};
      ghost var visited: set<string> := {};
      var rest := devicesByNodes.Keys;
      while rest != {}
        invariant !restricted ==> chosenDevices == map[]
        invariant rest !! visited && rest + visited == m.byNode.Keys
        invariant Scanned(parse, m, params, visited, chosenDevices, exhaustedDevices)
      {
        var n :| n in rest;
        ghost var chosenBefore, exhaustedBefore := chosenDevices, exhaustedDevices;
        ghost var codes := Verdicts(parse, m, params, devicesByNodes[n]);
        var chosen, exhausted;
        ghost var at;
        chosen, exhausted, at := ScanNode(params, devicesByNodes[n], restricted, codes);
        if chosen != null {
          if !restricted {
            first := Some(Found(n, chosen));
            return;
          }
          chosenDevices := chosenDevices[n := chosen];
        }
        if exhausted {
          exhaustedDevices := exhaustedDevices + {n};
        }
        ScannedNext(parse, m, params, visited, chosenBefore, exhaustedBefore, n, chosenDevices, exhaustedDevices);
        rest, visited := rest - {n}, visited + {n};
      }
      assert visited == m.byNode.Keys;
      first := None;
    }

    /** The rest of findDevice: requested nodes first, then any node at all. */
    method Choose(requested: seq<string>, chosenDevices: map<string, DeviceInfo>, exhaustedDevices: set<string>)
      returns (found: FindResult<DeviceInfo>)
      ensures Choice(requested, chosenDevices, exhaustedDevices, found)
    {
      var code := NotFound;
      var k := 0;
      while k < |requested|
        invariant 0 <= k <= |requested|
        invariant forall i | 0 <= i < k :: requested[i] !in chosenDevices
        invariant code == if exists i :: 0 <= i < k && requested[i] in exhaustedDevices then ResourceExhausted
                    else NotFound
      {
        if requested[k] in chosenDevices {
          return Found(requested[k], chosenDevices[requested[k]]);
        }
        if requested[k] in exhaustedDevices {
          code := ResourceExhausted;
        }
        k := k + 1;
      }
      if chosenDevices.Keys != {} {
        var n :| n in chosenDevices.Keys;
        return Found(n, chosenDevices[n]);
      }
      found := Missing(code);
    }

    /** dials says which endpoints can be connected to; accepts whether the node's CreateVolume
        returns without error. */
    method CreateVolume(req: CreateRequest, dials: string -> bool, accepts: (string, string, Params) -> bool)
      returns (reply: CreateReply, ghost found: FindResult<DeviceInfo>)
      requires Valid()
      modifies this`devicesByVolumeName, Repr`Volumes
      ensures Valid()
      ensures !req.hasCapabilities || req.name == "" ==> reply == Refused(InvalidArgument) && Abs() == old(Abs())
      ensures req.hasCapabilities && req.name != "" ==>
                && FindOutcome(parse, old(Abs()), req.params, Requested(req.topology, topologyKey), found)
                && (found.Missing? ==> reply == Refused(found.code) && Abs() == old(Abs()))
                && (found.Found? ==> found.device in old(Repr))
                && (found.Found? ==>
                      var volume := NewVolume(old(Abs()), topologyKey, req.name, req.size, req.params, found.node,
                                              found.device);
                      if rs.Connects(found.node, dials) && accepts(found.node, req.name, volume.context)
                      then reply == Created(volume) && Abs() == SetVolume(old(Abs()), found.device, req.name, volume)
                      else reply == Refused(Internal) && Abs() == old(Abs()))
      ensures reply.Created? ==> found.Found? && found.device in old(Repr)
      ensures reply.Created? ==>
                reply.volume == Vol(req.name, req.size, [map[topologyKey := found.node]],
                                    req.params["ID" := old(found.device.ID)])
      ensures reply.Created? ==> devicesByVolumeName == old(devicesByVolumeName)[req.name := found.device]
      ensures reply.Created? ==> found.device.Volumes == old(found.device.Volumes)[req.name := reply.volume]
      ensures reply.Created? ==> forall d | d in old(Repr) && d != found.device :: d.Volumes == old(d.Volumes)
    {
      found := Missing(NotFound);
      if !req.hasCapabilities {
        reply := Refused(InvalidArgument);
        return;
      }
      if req.name == "" {
        reply := Refused(InvalidArgument);
        return;
      }
      var result := FindDevice(req.params, Requested(req.topology, topologyKey));
      found := result;
      if result.Missing? {
        reply := Refused(result.code);
        return;
      }
      FindSoundComplete(parse, Abs(), req.params, Requested(req.topology, topologyKey), result);
      reply := CreateOn(req, result.node, result.device, dials, accepts);
    }

    /** The rest of CreateVolume, once the device is found. */
    method CreateOn(req: CreateRequest, node: string, device: DeviceInfo, dials: string -> bool,
                    accepts: (string, string, Params) -> bool)
      returns (reply: CreateReply)
      requires Valid() && device in Repr
      modifies this`devicesByVolumeName, device`Volumes
      ensures Valid()
      ensures var volume := NewVolume(old(Abs()), topologyKey, req.name, req.size, req.params, node, device);
              if rs.Connects(node, dials) && accepts(node, req.name, volume.context)
              then reply == Created(volume) && Abs() == SetVolume(old(Abs()), device, req.name, volume)
              else reply == Refused(Internal) && Abs() == old(Abs())
      ensures reply.Created? ==>
                reply.volume == Vol(req.name, req.size, [map[topologyKey := node]],
                                    req.params["ID" := old(device.ID)])
      ensures reply.Created? ==> devicesByVolumeName == old(devicesByVolumeName)[req.name := device]
      ensures reply.Created? ==> device.Volumes == old(device.Volumes)[req.name := reply.volume]
    {
      var context := req.params["ID" := device.ID];
      var volume := Vol(req.name, req.size, [map[topologyKey := node]], context);
      var connected := rs.ConnectToNodeController(node, dials);
      if !connected {
        return Refused(Internal);
      }
      if !accepts(node, req.name, context) {
        return Refused(Internal);
      }
      Record(req.name, device, volume);
      reply := Created(volume);
    }

    /** The two writes at the end of CreateVolume. */
    method Record(name: string, device: DeviceInfo, volume: Volume)
      requires Valid() && device in Repr && volume.Vol?
      modifies this`devicesByVolumeName, device`Volumes
      ensures Valid() && Abs() == SetVolume(old(Abs()), device, name, volume)
      ensures devicesByVolumeName == old(devicesByVolumeName)[name := device]
      ensures device.Volumes == old(device.Volumes)[name := volume]
    {
      PutVolumes(device, device.Volumes[name := volume]);
      PutNames(devicesByVolumeName[name := device]);
    }

    /** The two deletions of DeleteVolume. */
    method Forget(name: string, device: DeviceInfo)
      requires Valid() && device in Repr
      modifies this`devicesByVolumeName, device`Volumes
      ensures Valid() && Abs() == DropVolume(old(Abs()), device, name)
      ensures devicesByVolumeName == old(devicesByVolumeName) - {name}
      ensures device.Volumes == old(device.Volumes) - {name}
      ensures device.ID == old(device.ID)
    {
      PutVolumes(device, device.Volumes - {name});
      PutNames(devicesByVolumeName - {name});
    }

    method PutNames(names: map<string, DeviceInfo>)
      requires Valid() && forall v | v in names :: names[v] in Repr
      modifies this`devicesByVolumeName
      ensures Valid() && Abs() == old(Abs()).(byVolume := names) && devicesByVolumeName == names
    {
      devicesByVolumeName := names;
    }

    method PutVolumes(device: DeviceInfo, volumes: map<string, Volume>)
      requires Valid() && device in Repr && forall v | v in volumes :: volumes[v].Vol?
      modifies device`Volumes
      ensures Valid()
      ensures Abs() == var m := old(Abs()); m.(store := m.store[device := m.store[device].(volumes := volumes)])
      ensures device.Volumes == volumes
    {
      device.Volumes := volumes;
    }

    /** The first read of DeleteVolume, made without the mutex. */
    method DeviceOfVolume(name: string) returns (device: DeviceInfo?)
      requires Valid()
      ensures device == if name in devicesByVolumeName then devicesByVolumeName[name] else null
    {
      device := if name in devicesByVolumeName then devicesByVolumeName[name] else null;
    }

    /** The locked part of DeleteVolume. device was read earlier, so the tables may have changed
        since; deletes says what the node's DeleteVolume returns. */
    method DeleteLocked(name: string, device: DeviceInfo, dials: string -> bool, deletes: (string, string) -> Code)
      returns (code: Code, node: Option<string>)
      requires Valid() && device in Repr
      modifies this`devicesByVolumeName, device`Volumes
      ensures Valid() && Abs() == DropVolume(old(Abs()), device, name)
      ensures devicesByVolumeName == old(devicesByVolumeName) - {name}
      ensures device.Volumes == old(device.Volumes) - {name}
      ensures RouteOutcome(old(Abs()), old(device.ID), node)
      ensures code == if node.Some? && rs.Connects(node.value, dials) then deletes(node.value, name) else Internal
    {
      DropKeepsRoutes(Abs(), device, name);
      Forget(name, device);
      node := FindDeviceNode(device.ID);
      if node.None? {
        code := Internal;
        return;
      }
      if !rs.Connects(node.value, dials) {
        code := Internal;
        return;
      }
      code := deletes(node.value, name);
    }

    method DeleteVolume(name: string, dials: string -> bool, deletes: (string, string) -> Code) returns (code: Code)
      requires Valid()
      modifies this`devicesByVolumeName, Repr`Volumes
      ensures Valid()
      ensures name == "" ==> code == InvalidArgument && Abs() == old(Abs())
      ensures name != "" && name !in old(devicesByVolumeName) ==> code == OK && Abs() == old(Abs())
      ensures name != "" && name in old(devicesByVolumeName) ==>
                && Abs() == DropVolume(old(Abs()), old(devicesByVolumeName)[name], name)
                && devicesByVolumeName == old(devicesByVolumeName) - {name}
                && old(devicesByVolumeName)[name].Volumes == old(devicesByVolumeName[name].Volumes) - {name}
                && (exists node :: (
                      && RouteOutcome(old(Abs()), old(devicesByVolumeName[name].ID), node)
                      && code == if node.Some? && rs.Connects(node.value, dials) then deletes(node.value, name)
                           else Internal))
    {
      if name == "" {
        return InvalidArgument;
      }
      var device := DeviceOfVolume(name);
      if device == null {
        return OK;
      }
      var node;
      code, node := DeleteLocked(name, device, dials, deletes);
    }

    /** Copies the live volumes' devices out of the map, in an arbitrary order, and pages them. */
    method ListVolumes(maxEntries: Int32, token: string) returns (r: Pagination.Answer)
      requires Valid()
      ensures exists order :: Lists(Abs(), order, maxEntries, token, r)
    {
      var devices: seq<Pagination.Entry> := [];
      ghost var order: seq<string> := [];
      ghost var m := Abs();
      var rest := devicesByVolumeName.Keys;
      while rest != {}
        invariant rest <= devicesByVolumeName.Keys && |order| + |rest| == |devicesByVolumeName|
        invariant Distinct(order)
        invariant forall k | 0 <= k < |order| :: order[k] in m.byVolume && order[k] !in rest
        invariant devices == EntriesOf(m, order)
      {
        var v :| v in rest;
        var device := devicesByVolumeName[v];
        devices := devices + [Pagination.Entry(device.ID, device.Size)];
        order := order + [v];
        rest := rest - {v};
      }
      r := Pagination.MakePage(devices, maxEntries, token);
      assert Lists(Abs(), order, maxEntries, token, r);
    }
  }

  ghost function EntriesOf<R>(m: Master<R>, order: seq<string>): seq<Pagination.Entry>
    requires RefsOk(m) && forall v | v in order :: v in m.byVolume
  {
    seq(|order|, k requires 0 <= k < |order| =>
      var d := m.store[m.byVolume[order[k]]]; Pagination.Entry(d.id, d.size))
  }

  /** r is the page of the live volumes' devices, taken in an order that names every volume once. */
  ghost predicate Lists<R>(m: Master<R>, order: seq<string>, maxEntries: Int32, token: string, r: Pagination.Answer)
    requires RefsOk(m)
  {
    && Distinct(order) && |order| == |m.byVolume| && (forall v | v in order :: v in m.byVolume)
    && r == Pagination.PageOf(EntriesOf(m, order), maxEntries, token)
  }

  /** An entry carries the id and the size of the device of the volume it stands for, and a page from the
      start has the first of them. */
  lemma ListsEntries<R>(m: Master<R>, order: seq<string>, maxEntries: Int32, token: string, r: Pagination.Answer)
    requires RefsOk(m) && Lists(m, order, maxEntries, token, r) && r.Page?
    ensures forall e | e in r.entries ::
              exists v :: v in m.byVolume && e.id == m.store[m.byVolume[v]].id && e.size == m.store[m.byVolume[v]].size
    ensures token == "" && |order| <= MAX_INT32 ==>
              |r.entries| <= |order| && forall k | 0 <= k < |r.entries| ::
                && order[k] in m.byVolume && r.entries[k].id == m.store[m.byVolume[order[k]]].id
                && r.entries[k].size == m.store[m.byVolume[order[k]]].size
  {
    var devices := EntriesOf(m, order);
    Pagination.PageTakes(devices, maxEntries, token);
    forall e | e in r.entries
      ensures exists v :: v in m.byVolume && e.id == m.store[m.byVolume[v]].id && e.size == m.store[m.byVolume[v]].size
    {
      var k :| 0 <= k < |devices| && devices[k] == e;
      assert order[k] in m.byVolume;
    }
  }

  /** What the scan of one node's devices knows after the first i verdicts. */
  ghost predicate ScannedTo(codes: seq<Code>, i: int, restricted: bool, at: int, exhausted: bool) {
    && -1 <= at < i <= |codes|
    && (forall k | at < k < i :: codes[k] != OK)
    && (at >= 0 ==> codes[at] == OK && restricted)
    && (exhausted <==> ResourceExhausted in codes[..i])
  }

  lemma ScanNext(codes: seq<Code>, i: int, restricted: bool, at: int, exhausted: bool)
    requires ScannedTo(codes, i, restricted, at, exhausted) && i < |codes|
    ensures codes[i] == OK && restricted ==> ScannedTo(codes, i + 1, restricted, i, exhausted)
    ensures codes[i] == OK && !restricted ==> FirstOk(codes, i)
    ensures codes[i] != OK ==> ScannedTo(codes, i + 1, restricted, at, exhausted || codes[i] == ResourceExhausted)
  {
    assert codes[..i + 1] == codes[..i] + [codes[i]];
  }

  /** What the search loops have collected after visiting some nodes, none of which ended it. */
  ghost predicate Scanned<R>(parse: Parser, m: Master<R>, params: Params, visited: set<string>,
                             chosen: map<string, R>, exhausted: set<string>) {
    && visited <= m.byNode.Keys
    && chosen.Keys == NodesWith(parse, m, params, OK) * visited
    && (forall n | n in chosen :: LastMatch(parse, m, params, n, chosen[n]))
    && exhausted == NodesWith(parse, m, params, ResourceExhausted) * visited
  }

  lemma ScannedNext<R>(parse: Parser, m: Master<R>, params: Params, visited: set<string>, chosen: map<string, R>,
                       exhausted: set<string>,
                       n: string, chosen': map<string, R>, exhausted': set<string>)
    requires Scanned(parse, m, params, visited, chosen, exhausted) && n in m.byNode && n !in visited
    requires if NodeHas(parse, m, params, n, OK)
             then n in chosen' && chosen' == chosen[n := chosen'[n]] && LastMatch(parse, m, params, n, chosen'[n])
             else chosen' == chosen
    requires exhausted' == if NodeHas(parse, m, params, n, ResourceExhausted) then exhausted + {n} else exhausted
    ensures Scanned(parse, m, params, visited + {n}, chosen', exhausted')
  {
    MeetNext(NodesWith(parse, m, params, OK), visited, n);
    MeetNext(NodesWith(parse, m, params, ResourceExhausted), visited, n);
  }

  lemma MeetNext(s: set<string>, visited: set<string>, n: string)
    ensures s * (visited + {n}) == if n in s then s * visited + {n} else s * visited
  {
  }

  ghost predicate Choice<R>(requested: seq<string>, chosen: map<string, R>, exhausted: set<string>,
                            found: FindResult<R>) {
    match found
    case Found(n, d) =>
      && n in chosen && d == chosen[n]
      && (AnyRequested(chosen.Keys, requested) ==> FirstRequested(chosen.Keys, requested, n))
    case Missing(code) =>
      && chosen.Keys == {}
      && code == if AnyRequested(exhausted, requested) then ResourceExhausted else NotFound
  }

  lemma ChoiceOutcome<R>(parse: Parser, m: Master<R>, params: Params, requested: seq<string>,
                         chosen: map<string, R>, exhausted: set<string>, found: FindResult<R>)
    requires Scanned(parse, m, params, m.byNode.Keys, chosen, exhausted)
    requires |requested| == 0 ==> chosen == map[]
    requires Choice(requested, chosen, exhausted, found)
    ensures FindOutcome(parse, m, params, requested, found)
  {
    assert chosen.Keys == NodesWith(parse, m, params, OK);
    assert exhausted == NodesWith(parse, m, params, ResourceExhausted);
  }
}
