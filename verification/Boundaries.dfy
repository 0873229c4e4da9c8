/** Where the promises of EndToEnd end: for each event they exclude, exactly when it breaks the accounts
    and what follows. */
module Boundaries {
  import opened Decimal
  import opened Devices
  import opened Tables
  import opened Registry
  import opened System
  import opened Safety
  import opened Ownership
  import opened Replicas
  import opened Reliability
  import opened RoundTrip
  import opened EndToEnd
  import opened MasterIndex

  /** The master's account of every device is the granted one. */
  ghost predicate Settles(cfg: Config, d: Data) {
    forall x | x in d.master.store :: MasterSide(cfg, true, d, Settled, x)
  }

  /** Between calls, with every promise kept so far. */
  ghost predicate Sound(cfg: Config, d: Data) {
    KeepInv(cfg, true, d, Settled) && NodesOk(d) && TablesInv(d.master)
  }

  /** So it is in every orderly run, whenever no call is between the master and a node. */
  lemma OrderlyIsSound(cfg: Config, states: seq<State>, steps: seq<Step>, i: nat)
    requires OrderlyRun(cfg, true, states, steps) && i < |states|
    requires forall t | t in states[i].threads :: PhaseOf(states[i].threads[t]) == Settled
    ensures Sound(cfg, states[i].data) && Indexed(states[i].data.master)
  {
    OrderlyIsSteady(cfg, true, states, steps);
    AccountsAlways(cfg, true, states, steps, i);
    BaseAlways(cfg, states, steps, i);
    var phase :| Pends(states[i].threads, phase) && KeepInv(cfg, true, states[i].data, phase);
    assert phase == Settled;
  }

  lemma SoundAt(cfg: Config, d: Data, x: Ref)
    requires Sound(cfg, d) && x in d.master.store
    ensures ById(d.master, x) && Kept(cfg, true, d, Settled, x)
    ensures var n := NodeOf(d.master.store[x].id); n in d.nodes && NodeOk(d.nodes[n], n)
  {
    assert Kept(cfg, true, d, Settled, x);
  }

  lemma SoundSettles(cfg: Config, d: Data)
    requires Sound(cfg, d)
    ensures Settles(cfg, d)
  {
    forall x | x in d.master.store ensures MasterSide(cfg, true, d, Settled, x) {
      SoundAt(cfg, d, x);
    }
  }

  // ----- deleting

  lemma DropAt(cfg: Config, d: Data, name: string, dev: Ref, x: Ref)
    requires Possible(d, Dropped(name, dev)) && x in d.master.store
    ensures var d' := Apply(cfg, d, Dropped(name, dev));
            && d'.granted == d.granted && d'.nodes == d.nodes && d'.master.store.Keys == d.master.store.Keys
            && d'.master.store[x].id == d.master.store[x].id
            && d'.master.store[x].volumes ==
               if x == dev then d.master.store[x].volumes - {name} else d.master.store[x].volumes
  {
  }

  /** A deletion whose call does not take effect on a node (it is refused, fails, or finds no node)
      leaves the accounts right if and only if the name was not on the device it read. */
  lemma UnreachedDeleteExactly(cfg: Config, d: Data, name: string, dev: Ref)
    requires Settles(cfg, d) && Possible(d, Dropped(name, dev))
    ensures Settles(cfg, Apply(cfg, d, Dropped(name, dev))) <==> name !in d.master.store[dev].volumes
  {
    var d' := Apply(cfg, d, Dropped(name, dev));
    assert MasterSide(cfg, true, d, Settled, dev);
    forall x | x in d.master.store
      ensures x in d'.master.store
      ensures MasterSide(cfg, true, d', Settled, x) <==> (x == dev ==> name !in d.master.store[dev].volumes)
    {
      assert MasterSide(cfg, true, d, Settled, x);
      DropAt(cfg, d, name, dev, x);
    }
    DropAt(cfg, d, name, dev, dev);
  }

  /** The master knows that device, and counts the name on it. */
  lemma BoundDevice(cfg: Config, d: Data, name: string, n: string) returns (bound: Ref)
    requires Sound(cfg, d) && Possible(d, DeAllocated(name, n))
    ensures bound in d.master.store && d.master.store[bound].id == BoundId(d, name, n)
    ensures name in d.master.store[bound].volumes
  {
    assert Bound(d.nodes[n], name);
    HolderNode(d, name, n);
    assert !Empty(d.nodes[n]);
    assert Complete(d, n);
    bound := d.master.byID[BoundId(d, name, n)];
    assert Kept(cfg, true, d, Settled, bound);
  }

  lemma DeleteStillPossible(cfg: Config, d: Data, name: string, n: string, dev: Ref)
    requires Possible(d, Dropped(name, dev)) && Possible(d, DeAllocated(name, n))
    ensures Possible(Apply(cfg, d, Dropped(name, dev)), DeAllocated(name, n))
  {
  }

  lemma DeletedAt(cfg: Config, d: Data, name: string, n: string, dev: Ref, x: Ref)
    requires Possible(d, Dropped(name, dev)) && Possible(d, DeAllocated(name, n)) && x in d.master.store
    requires Possible(Apply(cfg, d, Dropped(name, dev)), DeAllocated(name, n))
    ensures var d', granted := AfterDelete(cfg, d, name, n, dev), Grants(d.granted, d.master.store[x].id);
            && d'.master.store.Keys == d.master.store.Keys
            && d'.master.store[x].id == d.master.store[x].id
            && d'.master.store[x].volumes ==
               (if x == dev then d.master.store[x].volumes - {name} else d.master.store[x].volumes)
            && Grants(d'.granted, d.master.store[x].id) ==
               (if d.master.store[x].id == BoundId(d, name, n) then granted - {name} else granted)
  {
  }

  lemma DeletedSide(cfg: Config, d: Data, name: string, n: string, dev: Ref, x: Ref)
    requires Possible(d, Dropped(name, dev)) && Possible(d, DeAllocated(name, n)) && x in d.master.store
    requires Possible(Apply(cfg, d, Dropped(name, dev)), DeAllocated(name, n))
    requires MasterSide(cfg, true, d, Settled, x)
    ensures var d' := AfterDelete(cfg, d, name, n, dev);
            x in d'.master.store
            && (MasterSide(cfg, true, d', Settled, x) <==>
                  (name in d.master.store[x].volumes ==> (x == dev <==> d.master.store[x].id == BoundId(d, name, n))))
  {
    DeletedAt(cfg, d, name, n, dev, x);
  }

  lemma DeleteSettlesExactly(cfg: Config, d: Data, name: string, n: string, dev: Ref, bound: Ref)
    requires Settles(cfg, d) && Possible(d, Dropped(name, dev)) && Possible(d, DeAllocated(name, n))
    requires Possible(Apply(cfg, d, Dropped(name, dev)), DeAllocated(name, n))
    requires bound in d.master.store && d.master.store[bound].id == BoundId(d, name, n)
    requires name in d.master.store[bound].volumes
    requires forall x | x in d.master.store && d.master.store[x].id == BoundId(d, name, n) :: x == bound
    ensures Settles(cfg, AfterDelete(cfg, d, name, n, dev)) <==> dev == bound
  {
    var d' := AfterDelete(cfg, d, name, n, dev);
    forall x | x in d.master.store
      ensures x in d'.master.store
      ensures MasterSide(cfg, true, d', Settled, x) <==>
              (name in d.master.store[x].volumes ==> (x == dev <==> x == bound))
    {
      assert MasterSide(cfg, true, d, Settled, x);
      DeletedSide(cfg, d, name, n, dev, x);
    }
    DeletedAt(cfg, d, name, n, dev, dev);
  }

  lemma SameIdSameDevice(cfg: Config, d: Data, x: Ref, y: Ref)
    requires Sound(cfg, d) && x in d.master.store && y in d.master.store
    requires d.master.store[x].id == d.master.store[y].id
    ensures x == y
  {
    SoundAt(cfg, d, x);
    SoundAt(cfg, d, y);
  }

  /** A deletion that takes effect on a node leaves the accounts right if and only if the device it read
      before the lock is the one the node has the name bound to. Between the read and the lock the volume
      may have been deleted and created again elsewhere on the node; then the node frees the new volume,
      and the master still counts it. */
  lemma StaleDeleteExactly(cfg: Config, d: Data, name: string, n: string, dev: Ref)
    requires Sound(cfg, d) && Possible(d, Dropped(name, dev)) && Possible(d, DeAllocated(name, n))
    ensures Possible(Apply(cfg, d, Dropped(name, dev)), DeAllocated(name, n))
    ensures Settles(cfg, AfterDelete(cfg, d, name, n, dev)) <==> d.master.store[dev].id == BoundId(d, name, n)
  {
    DeleteStillPossible(cfg, d, name, n, dev);
    SoundSettles(cfg, d);
    var bound := BoundDevice(cfg, d, name, n);
    forall x | x in d.master.store && d.master.store[x].id == BoundId(d, name, n) ensures x == bound {
      SameIdSameDevice(cfg, d, x, bound);
    }
    DeleteSettlesExactly(cfg, d, name, n, dev, bound);
  }

  // ----- deleting, when the master may count too much

  /** The master's account of every device has at least what was granted there: enough for its approvals to
      fit on the node. */
  ghost predicate Covers(cfg: Config, d: Data) {
    forall x | x in d.master.store :: MasterSide(cfg, false, d, Settled, x)
  }

  /** So it is in every orderly run, whenever no call is between the master and a node. */
  lemma OrderlyCovers(cfg: Config, states: seq<State>, steps: seq<Step>, i: nat)
    requires OrderlyRun(cfg, false, states, steps) && i < |states|
    requires forall t | t in states[i].threads :: PhaseOf(states[i].threads[t]) == Settled
    ensures Covers(cfg, states[i].data)
  {
    AccountsAlways(cfg, false, states, steps, i);
    var phase :| Pends(states[i].threads, phase) && KeepInv(cfg, false, states[i].data, phase);
    forall x | x in states[i].data.master.store ensures MasterSide(cfg, false, states[i].data, Settled, x) {
      assert Kept(cfg, false, states[i].data, phase, x);
    }
  }

  /** A deletion that frees nothing on a node keeps it so if and only if nothing of the name was granted on
      the device it read. */
  lemma UnreachedCoversExactly(cfg: Config, d: Data, name: string, dev: Ref)
    requires Covers(cfg, d) && Possible(d, Dropped(name, dev))
    ensures Covers(cfg, Apply(cfg, d, Dropped(name, dev))) <==>
            name !in Grants(d.granted, d.master.store[dev].id)
  {
    var d' := Apply(cfg, d, Dropped(name, dev));
    forall x | x in d.master.store
      ensures x in d'.master.store
      ensures MasterSide(cfg, false, d', Settled, x) <==>
              (x == dev ==> name !in Grants(d.granted, d.master.store[dev].id))
    {
      assert MasterSide(cfg, false, d, Settled, x);
      DropAt(cfg, d, name, dev, x);
    }
    DropAt(cfg, d, name, dev, dev);
  }

  lemma DeletedCovers(cfg: Config, d: Data, name: string, n: string, dev: Ref, x: Ref)
    requires Possible(d, Dropped(name, dev)) && Possible(d, DeAllocated(name, n)) && x in d.master.store
    requires Possible(Apply(cfg, d, Dropped(name, dev)), DeAllocated(name, n))
    requires MasterSide(cfg, false, d, Settled, x)
    ensures var d', id := AfterDelete(cfg, d, name, n, dev), d.master.store[x].id;
            && x in d'.master.store
            && (MasterSide(cfg, false, d', Settled, x) <==>
                  (x == dev ==> name !in Grants(d.granted, id) || BoundId(d, name, n) == id))
  {
    DeletedAt(cfg, d, name, n, dev, x);
  }

  /** One that a node carries out, if and only if nothing of the name was granted on that device or it is
      from there that the node frees it. A stale deletion of a name that was granted again elsewhere may
      free that and keep this; one that meets the name again on the device it once read, while the node
      has it bound elsewhere, makes the master forget what the node still has. */
  lemma ReachedCoversExactly(cfg: Config, d: Data, name: string, n: string, dev: Ref)
    requires Covers(cfg, d) && Possible(d, Dropped(name, dev)) && Possible(d, DeAllocated(name, n))
    ensures Possible(Apply(cfg, d, Dropped(name, dev)), DeAllocated(name, n))
    ensures var id := d.master.store[dev].id;
            Covers(cfg, AfterDelete(cfg, d, name, n, dev)) <==>
            name !in Grants(d.granted, id) || BoundId(d, name, n) == id
  {
    DeleteStillPossible(cfg, d, name, n, dev);
    var d', id := AfterDelete(cfg, d, name, n, dev), d.master.store[dev].id;
    forall x | x in d.master.store
      ensures x in d'.master.store
      ensures MasterSide(cfg, false, d', Settled, x) <==>
              (x == dev ==> name !in Grants(d.granted, id) || BoundId(d, name, n) == id)
    {
      assert MasterSide(cfg, false, d, Settled, x);
      DeletedCovers(cfg, d, name, n, dev, x);
    }
    DeletedAt(cfg, d, name, n, dev, dev);
  }

  // ----- losing a reply

  /** A create that the node accepted and whose reply was lost always upsets the accounts: the master
      counts too little on the device by exactly what the volume takes. */
  lemma LostReplyUndercounts(cfg: Config, d: Data, r: Request, n: string, dev: Ref, p: string)
    requires Sound(cfg, d) && Possible(d, Allocated(r, n, dev)) && NodeOf(d.master.store[dev].id) == n
    ensures var d', volume := Apply(cfg, d, Allocated(r, n, dev)), VolumeOf(cfg, d.master, r, n, dev);
            && !Settles(cfg, d') && d'.master == d.master
            && Used(cfg.parse, Grants(d'.granted, d.master.store[dev].id), p) ==
               Used(cfg.parse, d.master.store[dev].volumes, p) + Amount(cfg.parse, volume, p)
  {
    var id := d.master.store[dev].id;
    assert Kept(cfg, true, d, Settled, dev);
    AllocatedIs(cfg, d, r, n, dev, id);
    AcceptedName(d, r, n, dev);
    GrantOne(cfg, d.master.store[dev].volumes, r.name, VolumeOf(cfg, d.master, r, n, dev), p);
    assert !MasterSide(cfg, true, Apply(cfg, d, Allocated(r, n, dev)), Settled, dev);
  }

  lemma AcceptedName(d: Data, r: Request, n: string, dev: Ref)
    requires Possible(d, Allocated(r, n, dev)) && NodeOf(d.master.store[dev].id) == n
    requires NodeSide(d, d.master.store[dev].id, d.master.store[dev].params)
    ensures r.name !in Grants(d.granted, d.master.store[dev].id)
  {
  }

  lemma GrantOne(cfg: Config, volumes: map<string, Volume>, name: string, v: Volume, p: string)
    requires name !in volumes
    ensures Used(cfg.parse, volumes[name := v], p) == Used(cfg.parse, volumes, p) + Amount(cfg.parse, v, p)
  {
    UsedPut(cfg.parse, volumes, p, name, v);
    assert volumes - {name} == volumes;
  }

  // ----- restarting a node

  /** The node's devices still hold what was granted on them. */
  ghost predicate NodeAgrees(d: Data, n: string) {
    forall dev | dev in d.master.store && NodeOf(d.master.store[dev].id) == n ::
      NodeSide(d, d.master.store[dev].id, d.master.store[dev].params)
  }

  lemma RestartedSide(d: Data, n: string, g: Manager<Ref>, id: string, params: Params, volumes: map<string, Volume>)
    requires n in d.nodes && Booted(g, n) && NodeOf(id) == n
    requires NodeSide(d, id, params) && Grants(d.granted, id) == volumes
    requires forall i | i in d.nodes[n].byID && d.nodes[n].byID[i] in d.nodes[n].store ::
               i in g.byID && g.store[g.byID[i]].params == d.nodes[n].store[d.nodes[n].byID[i]].params
    ensures NodeSide(d.(nodes := d.nodes[n := g]), id, params) <==> volumes == map[]
  {
    assert volumes.Keys == {} <==> volumes == map[];
  }

  /** A node that restarts and finds the same devices again agrees with the master if and only if none of
      them held a volume. */
  lemma RestartExactly(cfg: Config, d: Data, n: string, g: Manager<Ref>)
    requires Sound(cfg, d) && n in d.nodes && Booted(g, n)
    requires forall i | i in d.nodes[n].byID && d.nodes[n].byID[i] in d.nodes[n].store ::
               i in g.byID && g.store[g.byID[i]].params == d.nodes[n].store[d.nodes[n].byID[i]].params
    ensures NodeAgrees(d.(nodes := d.nodes[n := g]), n) <==>
            forall dev | dev in d.master.store && NodeOf(d.master.store[dev].id) == n ::
                d.master.store[dev].volumes == map[]
  {
    forall dev | dev in d.master.store && NodeOf(d.master.store[dev].id) == n
      ensures var device := d.master.store[dev];
              NodeSide(d.(nodes := d.nodes[n := g]), device.id, device.params) <==> device.volumes == map[]
    {
      SoundAt(cfg, d, dev);
      var device := d.master.store[dev];
      RestartedSide(d, n, g, device.id, device.params, device.volumes);
    }
  }

  // ----- adding a node again

  /** A request for a GPU of this kind, within its total amounts. */
  predicate Satisfiable(cfg: Config, d: Device, params: Params) {
    && IsGpu(d) && SameKind(d, params)
    && WithinTotal(cfg.parse, d, params, MEMORY) && WithinTotal(cfg.parse, d, params, MILLICORES)
  }

  /** A device just added passes for empty: it matches every request of its kind within its total amounts,
      whatever is already granted on it. */
  lemma ReaddForgets(cfg: Config, d: Data, node: NodeInfo, reports: seq<Report>, refs: seq<Ref>, k: nat, params: Params)
    requires Possible(d, Added(node, reports, refs)) && k < |refs|
    requires Satisfiable(cfg, NewDevice(reports[k]), params)
    ensures var m := Apply(cfg, d, Added(node, reports, refs)).master;
            refs[k] in m.store && Match(cfg.parse, m.store[refs[k]], params) == OK
  {
    AddNodeStore(d.master, node.nodeID, reports, refs);
    EmptyDeviceMatches(cfg.parse, NewDevice(reports[k]), params);
  }

  /** The new volume fits beside what was granted before. */
  ghost predicate FitsBeside(cfg: Config, device: Device, granted: map<string, Volume>, v: Volume) {
    IsGpu(device) ==>
      && Used(cfg.parse, granted, MEMORY) + Amount(cfg.parse, v, MEMORY) <= Limit(cfg.parse, device, MEMORY)
      && Used(cfg.parse, granted, MILLICORES) + Amount(cfg.parse, v, MILLICORES) <= Limit(cfg.parse, device, MILLICORES)
  }

  lemma KnownNodeSide(cfg: Config, d: Data, n: string, id: string)
    requires Sound(cfg, d) && n in d.master.byNode && id in d.nodes[n].byID && n in d.nodes
    ensures NodeOf(id) == n && NodeSide(d, id, d.nodes[n].store[d.nodes[n].byID[id]].params)
  {
    assert Complete(d, n);
    assert NodeOk(d.nodes[n], n);
    assert Kept(cfg, true, d, Settled, d.master.byID[id]);
  }

  /** A create on a device whose node side is in order, whatever the master thinks of it. */
  lemma NodeAfterCreate(cfg: Config, d: Data, r: Request, n: string, dev: Ref)
    requires Possible(d, Allocated(r, n, dev)) && NodesOk(d) && NodeOf(d.master.store[dev].id) == n
    requires NodeSide(d, d.master.store[dev].id, d.master.store[dev].params)
    ensures var d', device := AfterCreate(cfg, d, r, n, dev), d.master.store[dev];
            && NodeSide(d', device.id, device.params)
            && r.name !in Grants(d.granted, device.id)
            && Grants(d'.granted, device.id) ==
                 Grants(d.granted, device.id)[r.name := VolumeOf(cfg, d.master, r, n, dev)]
  {
    var device, d' := d.master.store[dev], Apply(cfg, d, Allocated(r, n, dev));
    AllocatedIs(cfg, d, r, n, dev, device.id);
    AcceptedName(d, r, n, dev);
    AllocatedAccount(cfg, d, d', r, n, dev, device.id, device.params);
    CreatedKeepsNodes(cfg, d, r, n, dev);
  }

  lemma CreatedKeepsNodes(cfg: Config, d: Data, r: Request, n: string, dev: Ref)
    requires Possible(d, Allocated(r, n, dev))
    ensures var d', d2 := Apply(cfg, d, Allocated(r, n, dev)), AfterCreate(cfg, d, r, n, dev);
            d2.nodes == d'.nodes && d2.granted == d'.granted
  {
  }

  lemma FitsMeans(cfg: Config, device: Device, granted: map<string, Volume>, name: string, v: Volume)
    requires name !in granted && device.volumes.Keys == granted.Keys + {name}
    ensures FitsOnNode(cfg, device, granted[name := v]) <==> FitsBeside(cfg, device, granted, v)
  {
    GrantOne(cfg, granted, name, v, MEMORY);
    GrantOne(cfg, granted, name, v, MILLICORES);
    assert granted[name := v].Keys == granted.Keys + {name};
  }

  lemma AddedKeepsNodes(cfg: Config, d: Data, node: NodeInfo, reports: seq<Report>, refs: seq<Ref>, k: nat)
    requires Possible(d, Added(node, reports, refs)) && k < |refs|
    ensures var d' := Apply(cfg, d, Added(node, reports, refs));
            && d'.nodes == d.nodes && d'.granted == d.granted
            && refs[k] in d'.master.store && d'.master.store[refs[k]] == NewDevice(reports[k])
  {
    AddNodeStore(d.master, node.nodeID, reports, refs);
  }

  /** A create leaves the node overcommitted if and only if what was granted on the device and what the new
      volume takes exceed the device's memory or its millicores, whatever the master counts. */
  lemma CreateFitsExactly(cfg: Config, d: Data, r: Request, n: string, dev: Ref)
    requires Possible(d, Allocated(r, n, dev)) && NodesOk(d) && NodeOf(d.master.store[dev].id) == n
    requires NodeSide(d, d.master.store[dev].id, d.master.store[dev].params)
    ensures var d2, id := AfterCreate(cfg, d, r, n, dev), d.master.store[dev].id;
            && n in d2.nodes && id in d2.nodes[n].byID && d2.nodes[n].byID[id] in d2.nodes[n].store
            && var device := d2.nodes[n].store[d2.nodes[n].byID[id]];
            FitsOnNode(cfg, device, Grants(d2.granted, id)) <==>
            FitsBeside(cfg, device, Grants(d.granted, id), VolumeOf(cfg, d.master, r, n, dev))
  {
    NodeAfterCreate(cfg, d, r, n, dev);
    var d2, id := AfterCreate(cfg, d, r, n, dev), d.master.store[dev].id;
    var device := d2.nodes[n].store[d2.nodes[n].byID[id]];
    FitsMeans(cfg, device, Grants(d.granted, id), r.name, VolumeOf(cfg, d.master, r, n, dev));
  }

  /** A node that is added again: a create that is then accepted and recorded on a device leaves the node
      overcommitted if and only if what was granted there before and what the new volume takes exceed the
      device's memory or its millicores. */
  lemma ReaddOvercommitsExactly(cfg: Config, d: Data, node: NodeInfo, reports: seq<Report>, refs: seq<Ref>, k: nat,
                                r: Request)
    requires Sound(cfg, d) && node.nodeID in d.master.byNode && HonestReports(d, node.nodeID, reports)
    requires Possible(d, Added(node, reports, refs)) && k < |refs|
    requires Possible(Apply(cfg, d, Added(node, reports, refs)), Allocated(r, node.nodeID, refs[k]))
    ensures var d1 := Apply(cfg, d, Added(node, reports, refs));
            var d2, n, id := AfterCreate(cfg, d1, r, node.nodeID, refs[k]), node.nodeID, reports[k].id;
            && n in d2.nodes && id in d2.nodes[n].byID && d2.nodes[n].byID[id] in d2.nodes[n].store
            && refs[k] in d1.master.store
            && var device := d2.nodes[n].store[d2.nodes[n].byID[id]];
            FitsOnNode(cfg, device, Grants(d2.granted, id)) <==>
            FitsBeside(cfg, device, Grants(d.granted, id), VolumeOf(cfg, d1.master, r, n, refs[k]))
  {
    AddedKeepsNodes(cfg, d, node, reports, refs, k);
    KnownNodeSide(cfg, d, node.nodeID, reports[k].id);
    CreateFitsExactly(cfg, Apply(cfg, d, Added(node, reports, refs)), r, node.nodeID, refs[k]);
  }

  // ----- creating a name again

  lemma KeptRefuses(cfg: Config, d: Data, r: Request, n: string, dev: Ref)
    requires dev in d.master.store && Kept(cfg, true, d, Settled, dev)
    requires n == NodeOf(d.master.store[dev].id) && n in d.nodes && NodeOk(d.nodes[n], n)
    ensures Possible(d, Allocated(r, n, dev)) <==> r.name !in d.master.store[dev].volumes
  {
  }

  /** The node refuses a volume if and only if the device the master chose already has that name. */
  lemma RefusedExactly(cfg: Config, d: Data, r: Request, dev: Ref)
    requires Sound(cfg, d) && dev in d.master.store
    ensures Possible(d, Allocated(r, NodeOf(d.master.store[dev].id), dev)) <==> r.name !in d.master.store[dev].volumes
  {
    SoundAt(cfg, d, dev);
    KeptRefuses(cfg, d, r, NodeOf(d.master.store[dev].id), dev);
  }

  /** The name is on no device of the master but this one. */
  ghost predicate OnlyOn(m: Master<Ref>, name: string, dev: Ref) {
    forall x | x in m.store && name in m.store[x].volumes :: x == dev
  }

  lemma FoundOnItsNode(cfg: Config, m: Master<Ref>, params: Params, requested: seq<string>, found: FindResult<Ref>)
    requires TablesInv(m) && FindOutcome(cfg.parse, m, params, requested, found) && found.Found?
    ensures found.device in m.store && NodeOf(m.store[found.device].id) == found.node
  {
    FindSoundComplete(cfg.parse, m, params, requested, found);
    ListedOk(m, found.node, found.device);
  }

  lemma OnBoth(cfg: Config, d: Data, r: Request, n: string, dev: Ref, holder: Ref)
    requires Possible(d, Allocated(r, n, dev)) && holder in d.master.store && r.name in d.master.store[holder].volumes
    ensures var m' := AfterCreate(cfg, d, r, n, dev).master;
            && holder in m'.store && r.name in m'.store[holder].volumes
            && dev in m'.store && r.name in m'.store[dev].volumes
  {
    CreatedIs(cfg, d, r, n, dev);
  }

  /** A success on another device: its "ID" is new, and the name is now on two devices. */
  ghost predicate Doubles(cfg: Config, d: Data, r: Request, n: string, dev: Ref, holder: Ref)
    requires Possible(d, Allocated(r, n, dev)) && holder in d.master.store
  {
    && d.master.store[dev].id != d.master.store[holder].id
    && VolumeOf(cfg, d.master, r, n, dev).context["ID"] == d.master.store[dev].id
    && var m' := AfterCreate(cfg, d, r, n, dev).master;
    && holder in m'.store && r.name in m'.store[holder].volumes
    && dev in m'.store && r.name in m'.store[dev].volumes
  }

  lemma RepeatedOn(cfg: Config, d: Data, r: Request, n: string, dev: Ref, holder: Ref)
    requires Sound(cfg, d) && dev in d.master.store && holder in d.master.store
    requires NodeOf(d.master.store[dev].id) == n && r.name in d.master.store[holder].volumes
    ensures dev == holder ==> !Possible(d, Allocated(r, n, dev))
    ensures Possible(d, Allocated(r, n, dev)) ==> Doubles(cfg, d, r, n, dev, holder)
  {
    RefusedExactly(cfg, d, r, dev);
    if Possible(d, Allocated(r, n, dev)) {
      if d.master.store[dev].id == d.master.store[holder].id {
        SameIdSameDevice(cfg, d, dev, holder);
      }
      OnBoth(cfg, d, r, n, dev, holder);
    }
  }

  /** CreateVolume of a live name, for whatever device the search may answer: the one that holds the volume,
      and the node refuses; or another, and a success returns another "ID" and leaves the name on both.
      It never returns the existing volume. */
  lemma RepeatedCreate(cfg: Config, d: Data, r: Request, requested: seq<string>, found: FindResult<Ref>)
    requires Sound(cfg, d) && Indexed(d.master) && r.name in d.master.byVolume
    requires FindOutcome(cfg.parse, d.master, r.params, requested, found) && found.Found?
    ensures d.master.byVolume[r.name] in d.master.store
    ensures found.device == d.master.byVolume[r.name] ==> !Possible(d, Allocated(r, found.node, found.device))
    ensures Possible(d, Allocated(r, found.node, found.device)) ==>
              Doubles(cfg, d, r, found.node, found.device, d.master.byVolume[r.name])
  {
    FoundOnItsNode(cfg, d.master, r.params, requested, found);
    RepeatedOn(cfg, d, r, found.node, found.device, d.master.byVolume[r.name]);
  }

  lemma OnlyNow(m: Master<Ref>, dev: Ref, name: string, v: Volume)
    requires Indexed(m) && MasterExact(m) && dev in m.store && name !in m.store[dev].volumes
    ensures OnlyOn(SetVolume(m, dev, name, v), name, dev) <==> name !in m.byVolume
  {
    var m' := SetVolume(m, dev, name, v);
    if name in m.byVolume {
      assert name in m'.store[m.byVolume[name]].volumes;
    }
  }

  /** A create that the node accepts puts its name on one device only if and only if the name was not
      live, which the caller can tell beforehand. */
  lemma CreatesOneExactly(cfg: Config, d: Data, r: Request, n: string, dev: Ref)
    requires Sound(cfg, d) && Indexed(d.master) && MasterExact(d.master)
    requires Possible(d, Allocated(r, n, dev)) && NodeOf(d.master.store[dev].id) == n
    ensures OnlyOn(AfterCreate(cfg, d, r, n, dev).master, r.name, dev) <==> r.name !in d.master.byVolume
  {
    RefusedExactly(cfg, d, r, dev);
    CreatedIs(cfg, d, r, n, dev);
    OnlyNow(d.master, dev, r.name, VolumeOf(cfg, d.master, r, n, dev));
  }
}
