/** No device is overcommitted on the node itself, end to end, in orderly runs. */
module EndToEnd {
  import opened Wrappers
  import opened Decimal
  import opened Devices
  import opened Tables
  import opened Registry
  import opened System
  import opened Locks
  import opened Safety
  import opened Ownership
  import opened Replicas
  import opened Reliability

  // ----- where the holder of the master mutex stands

  /** A create between the node's acceptance and the master's record, or a delete between the master's
      deletions and its end. */
  datatype Phase = Settled | Recording(r: Request, n: string, d: Ref) | Removing(name: string, d: Ref)

  function PhaseOf(pc: Pc): Phase {
    if pc.CrCommit? then Recording(pc.r, pc.node, pc.d)
    else if Deleting(pc) then Removing(pc.name, pc.d)
    else Settled
  }

  /** phase is that of the one thread in the middle of something, if there is one. */
  ghost predicate Pends(threads: map<Tid, Pc>, phase: Phase) {
    && (forall t | t in threads && PhaseOf(threads[t]) != Settled :: PhaseOf(threads[t]) == phase)
    && (phase != Settled ==> exists t :: t in threads && PhaseOf(threads[t]) == phase)
  }

  /** How a thread's phase changes, by the effect of its step. */
  ghost predicate Turns(before: Phase, e: Effect, after: Phase) {
    match e
    case Allocated(r, n, d) => before == Settled && after == Recording(r, n, d)
    case Committed(r, n, d) => before == Recording(r, n, d) && after == Settled
    case Dropped(name, d) => before == Settled && after == Removing(name, d)
    case DeAllocated(name, n) => before.Removing? && before.name == name && after == Settled
    case Added(_, _, _) => before == Settled && after == Settled
    case _ => before == after || (before.Removing? && after == Settled)
  }

  lemma DropStarts(cfg: Config, pc: Pc, e: Effect, pc': Pc)
    requires Moves(cfg, pc, e, pc') && e.Dropped? && pc.DeTables?
    ensures pc'.DeRoute?
  {
  }

  lemma PhaseTurns(cfg: Config, s: State, t: Tid, e: Effect, pc': Pc)
    requires May(cfg, s, t, e, pc') && Steady(s, Run(t, e, pc'))
    ensures Turns(PhaseOf(s.threads[t]), e, PhaseOf(pc'))
  {
    var pc := s.threads[t];
    Sources(cfg, pc, e, pc');
    if e.Dropped? {
      DropStarts(cfg, pc, e, pc');
    }
  }

  lemma OnlyHoldersPend(pc: Pc)
    requires PhaseOf(pc) != Settled
    ensures HoldsMaster(pc)
  {
  }

  lemma OthersSettled(cfg: Config, s: State, t: Tid)
    requires LockInv(cfg, s) && t in s.threads && HoldsMaster(s.threads[t])
    ensures forall u | u in s.threads && u != t :: PhaseOf(s.threads[u]) == Settled
  {
    OneMaster(cfg, s, t);
    forall u | u in s.threads && u != t ensures PhaseOf(s.threads[u]) == Settled {
      if PhaseOf(s.threads[u]) != Settled {
        OnlyHoldersPend(s.threads[u]);
      }
    }
  }

  lemma PendsAlone(threads: map<Tid, Pc>, t: Tid, pc: Pc)
    requires forall u | u in threads && u != t :: PhaseOf(threads[u]) == Settled
    ensures Pends(threads[t := pc], PhaseOf(pc))
    ensures forall phase | t in threads && Pends(threads, phase) :: phase == PhaseOf(threads[t])
  {
    assert threads[t := pc][t] == pc;
  }

  lemma PendsAside(threads: map<Tid, Pc>, t: Tid, pc: Pc, phase: Phase)
    requires Pends(threads, phase) && PhaseOf(pc) == Settled && (t in threads ==> PhaseOf(threads[t]) == Settled)
    ensures Pends(threads[t := pc], phase)
  {
    if u :| u in threads && PhaseOf(threads[u]) == phase && phase != Settled {
      assert threads[t := pc][u] == threads[u];
    }
  }

  /** The pending phase turns as the phase of the thread that takes the step. */
  lemma PendsNext(cfg: Config, s: State, t: Tid, e: Effect, pc': Pc, phase: Phase) returns (phase': Phase)
    requires LockInv(cfg, s) && May(cfg, s, t, e, pc') && Steady(s, Run(t, e, pc')) && Pends(s.threads, phase)
    ensures Pends(s.threads[t := pc'], phase') && Turns(phase, e, phase')
    ensures Heavy(e) || PhaseOf(s.threads[t]) != Settled ==> phase == PhaseOf(s.threads[t]) && phase' == PhaseOf(pc')
    ensures !Heavy(e) && PhaseOf(s.threads[t]) == Settled ==> phase' == phase
  {
    var pc := s.threads[t];
    PhaseTurns(cfg, s, t, e, pc');
    if Heavy(e) || PhaseOf(pc) != Settled {
      Sources(cfg, pc, e, pc');
      if Heavy(e) {
        HeavyHoldsMaster(pc, e, pc');
      } else {
        OnlyHoldersPend(pc);
      }
      OthersSettled(cfg, s, t);
      PendsAlone(s.threads, t, pc');
      phase' := PhaseOf(pc');
    } else {
      PendsAside(s.threads, t, pc', phase);
      phase' := phase;
    }
  }

  // ----- the accounts

  /** The node's device and the volumes granted on it have the same names, and its parameters are those
      the master knows. */
  ghost predicate NodeSide(d: Data, id: string, params: Params) {
    NodeOf(id) in d.nodes && Carries(d.nodes[NodeOf(id)], id, params, Grants(d.granted, id).Keys)
  }

  ghost predicate Carries(g: Manager<Ref>, id: string, params: Params, names: set<string>) {
    && id in g.byID && g.byID[id] in g.store
    && g.store[g.byID[id]].params == params && g.store[g.byID[id]].volumes.Keys == names
  }

  /** The volumes are the granted ones; if not exact, there may be more. */
  ghost predicate Holding(exact: bool, granted: map<string, Volume>, volumes: map<string, Volume>) {
    if exact then granted == volumes else forall v | v in granted :: v in volumes && granted[v] == volumes[v]
  }

  /** The master's device holds what was granted on it, give or take the pending call. */
  ghost predicate MasterSide(cfg: Config, exact: bool, d: Data, phase: Phase, dev: Ref)
    requires dev in d.master.store
  {
    var granted, volumes := Grants(d.granted, d.master.store[dev].id), d.master.store[dev].volumes;
    match phase
    case Recording(r, n, pending) =>
      Holding(exact, granted, if pending == dev then volumes[r.name := VolumeOf(cfg, d.master, r, n, dev)] else volumes)
    case Removing(name, pending) => Holding(exact, if pending == dev then granted - {name} else granted, volumes)
    case Settled => Holding(exact, granted, volumes)
  }

  /** A device with what was granted on it for its volumes. */
  ghost function Granted(d: Data, dev: Ref): Device
    requires dev in d.master.store
  {
    d.master.store[dev].(volumes := Grants(d.granted, d.master.store[dev].id))
  }

  ghost predicate Kept(cfg: Config, exact: bool, d: Data, phase: Phase, dev: Ref)
    requires dev in d.master.store
  {
    && NodeSide(d, d.master.store[dev].id, d.master.store[dev].params)
    && MasterSide(cfg, exact, d, phase, dev)
    && WithinLimits(cfg.parse, Granted(d, dev))
  }

  /** Every device the master ever created is the one it knows by id, of a node it knows. */
  ghost predicate ById(m: Master<Ref>, dev: Ref)
    requires dev in m.store
  {
    var id := m.store[dev].id;
    id in m.byID && m.byID[id] == dev && NodeOf(id) in m.byNode
  }

  ghost predicate Complete(d: Data, n: string) {
    n in d.nodes && forall i | i in d.nodes[n].byID :: i in d.master.byID
  }

  ghost predicate Empty(g: Manager<Ref>) {
    forall x | x in g.store :: g.store[x].volumes == map[]
  }

  ghost predicate KeepInv(cfg: Config, exact: bool, d: Data, phase: Phase) {
    && (forall dev | dev in d.master.store :: ById(d.master, dev) && Kept(cfg, exact, d, phase, dev))
    && (forall n | n in d.master.byNode :: Complete(d, n))
    && (forall n | n in d.nodes && n !in d.master.byNode :: Empty(d.nodes[n]))
    && (forall id | id in d.granted :: NodeOf(id) in d.master.byNode)
  }

  // ----- a node is added

  /** The first time, no id has to go. */
  lemma FirstAdd(m: Master<Ref>, n: string, reports: seq<Report>, refs: seq<Ref>)
    requires RefsOk(m) && |reports| == |refs| && n !in m.byNode
    ensures AddNode(m, n, reports, refs).byID == PutIDs(m.byID, reports, refs)
  {
    assert m.byID - ListedIDs(m, n) == m.byID;
  }

  lemma AddedOldById(m: Master<Ref>, n: string, reports: seq<Report>, refs: seq<Ref>, dev: Ref)
    requires RefsOk(m) && |reports| == |refs| && FreshRefs(m, refs) && n !in m.byNode
    requires dev in m.store && ById(m, dev) && WellReported(n, reports)
    ensures var m' := AddNode(m, n, reports, refs); dev in m'.store && m'.store[dev] == m.store[dev] && ById(m', dev)
  {
    AddNodeStore(m, n, reports, refs);
    FirstAdd(m, n, reports, refs);
    PutIDsSpec(m.byID, reports, refs, m.store[dev].id);
  }

  lemma AddedNewById(m: Master<Ref>, n: string, reports: seq<Report>, refs: seq<Ref>, k: nat)
    requires RefsOk(m) && |reports| == |refs| && FreshRefs(m, refs) && n !in m.byNode
    requires k < |refs| && WellReported(n, reports)
    ensures var m' := AddNode(m, n, reports, refs);
            refs[k] in m'.store && m'.store[refs[k]] == NewDevice(reports[k]) && ById(m', refs[k])
  {
    AddNodeStore(m, n, reports, refs);
    FirstAdd(m, n, reports, refs);
    PutIDsSpec(m.byID, reports, refs, reports[k].id);
  }

  lemma KeptFrame(cfg: Config, exact: bool, d: Data, d': Data, dev: Ref)
    requires dev in d.master.store && dev in d'.master.store && d'.master.store[dev] == d.master.store[dev]
    requires d'.nodes == d.nodes && d'.granted == d.granted && Kept(cfg, exact, d, Settled, dev)
    ensures Kept(cfg, exact, d', Settled, dev)
  {
  }

  /** A device nobody has ever granted anything on. */
  lemma KeptNew(cfg: Config, exact: bool, d: Data, n: string, report: Report, d': Data, dev: Ref)
    requires n in d.nodes && Empty(d.nodes[n]) && NodeOf(report.id) == n && report.id !in d.granted
    requires report.id in d.nodes[n].byID && d.nodes[n].byID[report.id] in d.nodes[n].store
    requires report.params == d.nodes[n].store[d.nodes[n].byID[report.id]].params
    requires dev in d'.master.store && d'.master.store[dev] == NewDevice(report) && d'.nodes == d.nodes
               && d'.granted == d.granted
    ensures Kept(cfg, exact, d', Settled, dev)
  {
    EmptyWithinLimits(cfg.parse, NewDevice(report));
  }

  lemma AddedComplete(m: Master<Ref>, d: Data, node: string, reports: seq<Report>, refs: seq<Ref>, n: string)
    requires RefsOk(m) && |reports| == |refs| && d.master == m && HonestReports(d, node, reports) && node !in m.byNode
    requires if n == node then true else Complete(d, n)
    ensures Complete(d.(master := AddNode(m, node, reports, refs)), n)
  {
    FirstAdd(m, node, reports, refs);
    forall i | i in d.nodes[n].byID ensures i in AddNode(m, node, reports, refs).byID {
      PutIDsSpec(m.byID, reports, refs, i);
    }
  }

  lemma AddedDevice(cfg: Config, exact: bool, d: Data, node: NodeInfo, reports: seq<Report>, refs: seq<Ref>, dev: Ref)
    requires Possible(d, Added(node, reports, refs)) && KeepInv(cfg, exact, d, Settled)
    requires WellReported(node.nodeID, reports) && HonestReports(d, node.nodeID, reports)
               && node.nodeID !in d.master.byNode
    requires dev in Apply(cfg, d, Added(node, reports, refs)).master.store
    ensures var d' := Apply(cfg, d, Added(node, reports, refs));
            ById(d'.master, dev) && Kept(cfg, exact, d', Settled, dev)
  {
    var d' := Apply(cfg, d, Added(node, reports, refs));
    if dev in d.master.store {
      AddedOldById(d.master, node.nodeID, reports, refs, dev);
      KeptFrame(cfg, exact, d, d', dev);
    } else {
      AddNodeStore(d.master, node.nodeID, reports, refs);
      var k :| 0 <= k < |refs| && refs[k] == dev;
      AddedNewById(d.master, node.nodeID, reports, refs, k);
      KeptNew(cfg, exact, d, node.nodeID, reports[k], d', dev);
    }
  }

  lemma AddedKeeps(cfg: Config, exact: bool, d: Data, node: NodeInfo, reports: seq<Report>, refs: seq<Ref>)
    requires Possible(d, Added(node, reports, refs)) && KeepInv(cfg, exact, d, Settled)
    requires WellReported(node.nodeID, reports) && HonestReports(d, node.nodeID, reports)
               && node.nodeID !in d.master.byNode
    ensures KeepInv(cfg, exact, Apply(cfg, d, Added(node, reports, refs)), Settled)
  {
    var d' := Apply(cfg, d, Added(node, reports, refs));
    forall dev | dev in d'.master.store ensures ById(d'.master, dev) && Kept(cfg, exact, d', Settled, dev) {
      AddedDevice(cfg, exact, d, node, reports, refs, dev);
    }
    forall n | n in d'.master.byNode ensures Complete(d', n) {
      AddedComplete(d.master, d, node.nodeID, reports, refs, n);
    }
  }

  // ----- calls about one device leave the accounts of the others alone

  predicate About(phase: Phase, dev: Ref) {
    match phase
    case Settled => false
    case Recording(_, _, d) => d == dev
    case Removing(_, d) => d == dev
  }

  lemma KeptOther(cfg: Config, exact: bool, d: Data, d': Data, phase: Phase, phase': Phase, other: Ref)
    requires other in d.master.store && other in d'.master.store && d'.master.store[other] == d.master.store[other]
    requires var dev := d.master.store[other];
             NodeSide(d', dev.id, dev.params) && Grants(d'.granted, dev.id) == Grants(d.granted, dev.id)
    requires Kept(cfg, exact, d, phase, other) && !About(phase, other) && !About(phase', other)
    ensures Kept(cfg, exact, d', phase', other)
  {
  }

  lemma OtherId(m: Master<Ref>, dev: Ref, other: Ref)
    requires dev in m.store && other in m.store && ById(m, dev) && ById(m, other) && dev != other
    ensures m.store[dev].id != m.store[other].id
  {
  }

  lemma AllocateCarries(g: Manager<Ref>, n: string, id: string, name: string, other: string, params: Params,
                        names: set<string>)
    requires NodeOk(g, n) && Allocate(g, id, name).Some? && Carries(g, other, params, names)
    ensures Carries(Allocate(g, id, name).value, other, params, if other == id then names + {name} else names)
  {
  }

  lemma DeAllocateCarries(g: Manager<Ref>, n: string, name: string, other: string, params: Params, names: set<string>)
    requires NodeOk(g, n) && DeAllocate(g, name).Some? && Carries(g, other, params, names)
    ensures var id := g.store[g.byVolume[name]].id;
            Carries(DeAllocate(g, name).value, other, params, if other == id then names - {name} else names)
  {
    assert Bound(g, name);
  }

  lemma HolderNode(d: Data, name: string, n: string)
    requires Possible(d, DeAllocated(name, n)) && NodesOk(d)
    ensures NodeOf(d.nodes[n].store[d.nodes[n].byVolume[name]].id) == n
  {
    assert Bound(d.nodes[n], name);
  }

  lemma NodeSidePut(d: Data, d': Data, n: string, g: Manager<Ref>, id: string, params: Params)
    requires NodeSide(d, id, params) && d'.nodes == d.nodes[n := g]
    requires if n == NodeOf(id) then Carries(g, id, params, Grants(d'.granted, id).Keys)
               else Grants(d'.granted, id) == Grants(d.granted, id)
    ensures NodeSide(d', id, params)
  {
  }

  lemma AllocatedAccount(cfg: Config, d: Data, d': Data, r: Request, n: string, dev: Ref, other: string, params: Params)
    requires Possible(d, Allocated(r, n, dev)) && NodesOk(d) && NodeOf(d.master.store[dev].id) == n
    requires d'.nodes == d.nodes[n := Allocate(d.nodes[n], d.master.store[dev].id, r.name).value]
    requires Grants(d'.granted, other) == GrantsAfter(cfg, d, r, n, dev, other)
    requires NodeSide(d, other, params)
    ensures NodeSide(d', other, params)
  {
    if NodeOf(other) == n {
      AllocateCarries(d.nodes[n], n, d.master.store[dev].id, r.name, other, params, Grants(d.granted, other).Keys);
    }
    NodeSidePut(d, d', n, d'.nodes[n], other, params);
  }

  ghost function GrantsAfter(cfg: Config, d: Data, r: Request, n: string, dev: Ref, other: string): map<string, Volume>
    requires dev in d.master.store
  {
    var granted := Grants(d.granted, other);
    if other == d.master.store[dev].id then granted[r.name := VolumeOf(cfg, d.master, r, n, dev)] else granted
  }

  lemma AllocatedIs(cfg: Config, d: Data, r: Request, n: string, dev: Ref, other: string)
    requires Possible(d, Allocated(r, n, dev))
    ensures var d' := Apply(cfg, d, Allocated(r, n, dev));
            && d'.nodes == d.nodes[n := Allocate(d.nodes[n], d.master.store[dev].id, r.name).value]
            && Grants(d'.granted, other) == GrantsAfter(cfg, d, r, n, dev, other)
  {
  }

  lemma DeAllocatedAccount(d: Data, d': Data, name: string, n: string, other: string, params: Params)
    requires Possible(d, DeAllocated(name, n)) && NodesOk(d)
    requires d'.nodes == d.nodes[n := DeAllocate(d.nodes[n], name).value]
    requires Grants(d'.granted, other) == GrantsLeft(d, name, n, other)
    requires NodeSide(d, other, params)
    ensures NodeSide(d', other, params)
  {
    HolderNode(d, name, n);
    if NodeOf(other) == n {
      DeAllocateCarries(d.nodes[n], n, name, other, params, Grants(d.granted, other).Keys);
    }
    NodeSidePut(d, d', n, d'.nodes[n], other, params);
  }

  ghost function GrantsLeft(d: Data, name: string, n: string, other: string): map<string, Volume>
    requires Possible(d, DeAllocated(name, n))
  {
    var granted := Grants(d.granted, other);
    if other == d.nodes[n].store[d.nodes[n].byVolume[name]].id then granted - {name} else granted
  }

  lemma DeAllocatedIs(cfg: Config, d: Data, name: string, n: string, other: string)
    requires Possible(d, DeAllocated(name, n))
    ensures var d' := Apply(cfg, d, DeAllocated(name, n));
            && d'.nodes == d.nodes[n := DeAllocate(d.nodes[n], name).value]
            && Grants(d'.granted, other) == GrantsLeft(d, name, n, other)
  {
  }

  // ----- the four effects of calls about volumes

  /** Fewer volumes than a device within its limits holds are within them too. */
  lemma FewerKeepsLimits(parse: Parser, d: Device, volumes: map<string, Volume>)
    requires WithinLimits(parse, d) && forall v | v in volumes :: v in d.volumes && volumes[v] == d.volumes[v]
    ensures WithinLimits(parse, d.(volumes := volumes))
  {
    UsedMonotone(parse, volumes, d.volumes, MEMORY);
    UsedMonotone(parse, volumes, d.volumes, MILLICORES);
  }

  lemma AllocatedKept(cfg: Config, exact: bool, d: Data, r: Request, n: string, dev: Ref)
    requires Possible(d, Allocated(r, n, dev)) && NodesOk(d) && NodeOf(d.master.store[dev].id) == n
    requires Kept(cfg, exact, d, Settled, dev)
    requires WithinLimits(cfg.parse, d.master.store[dev]) && Match(cfg.parse, d.master.store[dev], r.params) == OK
    ensures Kept(cfg, exact, Apply(cfg, d, Allocated(r, n, dev)), Recording(r, n, dev), dev)
  {
    var device, v := d.master.store[dev], VolumeOf(cfg, d.master, r, n, dev);
    AllocatedIs(cfg, d, r, n, dev, device.id);
    AllocatedAccount(cfg, d, Apply(cfg, d, Allocated(r, n, dev)), r, n, dev, device.id, device.params);
    ApprovalKeepsLimits(cfg.parse, device, r.params, r.name, v);
    FewerKeepsLimits(cfg.parse, device.(volumes := device.volumes[r.name := v]),
        Grants(d.granted, device.id)[r.name := v]);
  }

  lemma CommittedKept(cfg: Config, exact: bool, d: Data, r: Request, n: string, dev: Ref)
    requires Possible(d, Committed(r, n, dev)) && Kept(cfg, exact, d, Recording(r, n, dev), dev)
    ensures Kept(cfg, exact, Apply(cfg, d, Committed(r, n, dev)), Settled, dev)
  {
    var d' := Apply(cfg, d, Committed(r, n, dev));
    assert Granted(d', dev) == Granted(d, dev);
  }

  lemma DroppedKept(cfg: Config, exact: bool, d: Data, name: string, dev: Ref)
    requires Possible(d, Dropped(name, dev)) && Kept(cfg, exact, d, Settled, dev)
    ensures Kept(cfg, exact, Apply(cfg, d, Dropped(name, dev)), Removing(name, dev), dev)
  {
    var d' := Apply(cfg, d, Dropped(name, dev));
    assert Granted(d', dev) == Granted(d, dev);
  }

  /** The device of the deletion that frees a volume there. */
  lemma FreedHere(cfg: Config, exact: bool, d: Data, name: string, n: string, dev: Ref)
    requires Possible(d, DeAllocated(name, n)) && NodesOk(d) && dev in d.master.store
    requires BoundId(d, name, n) == d.master.store[dev].id
    requires Kept(cfg, exact, d, Removing(name, dev), dev)
    ensures Kept(cfg, exact, Apply(cfg, d, DeAllocated(name, n)), Settled, dev)
  {
    var device := d.master.store[dev];
    DeAllocatedIs(cfg, d, name, n, device.id);
    DeAllocatedAccount(d, Apply(cfg, d, DeAllocated(name, n)), name, n, device.id, device.params);
    ReleaseKeepsLimits(cfg.parse, Granted(d, dev), name);
  }

  /** Any other device: if it is freed there, the master counts more than was granted from now on. */
  lemma FreedElsewhere(cfg: Config, exact: bool, d: Data, name: string, n: string, dev: Ref, x: Ref)
    requires Possible(d, DeAllocated(name, n)) && NodesOk(d) && x in d.master.store
    requires x != dev || name !in Grants(d.granted, d.master.store[x].id)
    requires exact ==> BoundId(d, name, n) != d.master.store[x].id
    requires Kept(cfg, exact, d, Removing(name, dev), x)
    ensures Kept(cfg, exact, Apply(cfg, d, DeAllocated(name, n)), Settled, x)
  {
    var device, granted := d.master.store[x], Grants(d.granted, d.master.store[x].id);
    DeAllocatedIs(cfg, d, name, n, device.id);
    DeAllocatedAccount(d, Apply(cfg, d, DeAllocated(name, n)), name, n, device.id, device.params);
    ReleaseKeepsLimits(cfg.parse, Granted(d, x), name);
    if name !in granted {
      assert granted - {name} == granted;
    }
  }

  /** What the accounts need of an effect. */
  ghost predicate Fits(cfg: Config, exact: bool, d: Data, e: Effect, phase: Phase, phase': Phase)
    requires Possible(d, e)
  {
    match e
    case Allocated(r, n, dev) =>
      && NodeOf(d.master.store[dev].id) == n && WithinLimits(cfg.parse, d.master.store[dev])
      && Match(cfg.parse, d.master.store[dev], r.params) == OK
    case Added(node, reports, _) =>
      && WellReported(node.nodeID, reports) && HonestReports(d, node.nodeID, reports)
      && node.nodeID !in d.master.byNode
    case DeAllocated(name, n) =>
      && phase.Removing? && phase.d in d.master.store
      && (|| BoundId(d, name, n) == d.master.store[phase.d].id
          || (!exact && name !in Grants(d.granted, d.master.store[phase.d].id)))
    case Committed(_, _, _) => true
    case Dropped(_, _) => true
    case _ => (e.Removed? ==> e.l != MasterListener) && (phase != phase' ==> EndsQuietly(d, phase))
  }

  /** The id of the device the node has the name bound to. */
  ghost function BoundId(d: Data, name: string, n: string): string
    requires Possible(d, DeAllocated(name, n))
  {
    d.nodes[n].store[d.nodes[n].byVolume[name]].id
  }

  /** A deletion can end without freeing anything: its device has not got the volume. */
  ghost predicate EndsQuietly(d: Data, phase: Phase) {
    && phase.Removing? && phase.d in d.master.store
    && phase.name !in Grants(d.granted, d.master.store[phase.d].id)
  }

  function Touched(e: Effect): Option<Ref> {
    match e
    case Allocated(_, _, dev) => Some(dev)
    case Committed(_, _, dev) => Some(dev)
    case Dropped(_, dev) => Some(dev)
    case _ => None
  }

  lemma TouchedKept(cfg: Config, exact: bool, d: Data, e: Effect, phase: Phase, phase': Phase, dev: Ref)
    requires Possible(d, e) && NodesOk(d) && Fits(cfg, exact, d, e, phase, phase') && Turns(phase, e, phase')
    requires Touched(e) == Some(dev) && dev in d.master.store && Kept(cfg, exact, d, phase, dev)
    ensures dev in Apply(cfg, d, e).master.store && Kept(cfg, exact, Apply(cfg, d, e), phase', dev)
  {
    match e
    case Allocated(r, n, _) => AllocatedKept(cfg, exact, d, r, n, dev);
    case Committed(r, n, _) => CommittedKept(cfg, exact, d, r, n, dev);
    case Dropped(name, _) => DroppedKept(cfg, exact, d, name, dev);
  }

  /** What a volume effect leaves alone. */
  lemma OtherFrame(cfg: Config, d: Data, e: Effect, dev: Ref, other: Ref)
    requires Possible(d, e) && Touched(e) == Some(dev)
    requires dev in d.master.store && other in d.master.store && d.master.store[dev].id != d.master.store[other].id
    ensures var d' := Apply(cfg, d, e);
            && other in d'.master.store && d'.master.store[other] == d.master.store[other]
            && Grants(d'.granted, d.master.store[other].id) == Grants(d.granted, d.master.store[other].id)
  {
  }

  lemma OtherNodeSide(cfg: Config, exact: bool, d: Data, e: Effect, phase: Phase, phase': Phase, id: string,
                      params: Params)
    requires Possible(d, e) && NodesOk(d) && Fits(cfg, exact, d, e, phase, phase') && Touched(e).Some?
    requires NodeSide(d, id, params)
    ensures NodeSide(Apply(cfg, d, e), id, params)
  {
    match e
    case Allocated(r, n, dev) =>
      AllocatedIs(cfg, d, r, n, dev, id);
      AllocatedAccount(cfg, d, Apply(cfg, d, e), r, n, dev, id, params);
    case _ =>
  }

  lemma PhasesAbout(phase: Phase, e: Effect, phase': Phase, dev: Ref, other: Ref)
    requires Turns(phase, e, phase') && Touched(e) == Some(dev) && dev != other
    ensures !About(phase, other) && !About(phase', other)
  {
  }

  lemma FreedKept(cfg: Config, exact: bool, d: Data, name: string, n: string, phase: Phase, x: Ref)
    requires Possible(d, DeAllocated(name, n)) && NodesOk(d)
               && Fits(cfg, exact, d, DeAllocated(name, n), phase, Settled)
    requires phase.name == name && x in d.master.store && ById(d.master, x) && ById(d.master, phase.d)
    requires Kept(cfg, exact, d, phase, x)
    ensures Kept(cfg, exact, Apply(cfg, d, DeAllocated(name, n)), Settled, x)
  {
    if x != phase.d {
      OtherId(d.master, phase.d, x);
    }
    if x == phase.d && BoundId(d, name, n) == d.master.store[x].id {
      FreedHere(cfg, exact, d, name, n, x);
    } else {
      FreedElsewhere(cfg, exact, d, name, n, phase.d, x);
    }
  }

  lemma VolumeKept(cfg: Config, exact: bool, d: Data, e: Effect, phase: Phase, phase': Phase, x: Ref)
    requires Possible(d, e) && NodesOk(d) && Fits(cfg, exact, d, e, phase, phase') && Turns(phase, e, phase')
    requires KeepInv(cfg, exact, d, phase) && x in d.master.store && (Touched(e).Some? || e.DeAllocated?)
    ensures x in Apply(cfg, d, e).master.store && Kept(cfg, exact, Apply(cfg, d, e), phase', x)
  {
    if e.DeAllocated? {
      FreedKept(cfg, exact, d, e.name, e.n, phase, x);
    } else {
      var dev := Touched(e).value;
      assert ById(d.master, dev) && ById(d.master, x);
      if x == dev {
        TouchedKept(cfg, exact, d, e, phase, phase', dev);
      } else {
        OtherId(d.master, dev, x);
        OtherFrame(cfg, d, e, dev, x);
        OtherNodeSide(cfg, exact, d, e, phase, phase', d.master.store[x].id, d.master.store[x].params);
        PhasesAbout(phase, e, phase', dev, x);
        KeptOther(cfg, exact, d, Apply(cfg, d, e), phase, phase', x);
      }
    }
  }

  /** Volume effects change no table of devices, on the master or on the nodes. */
  lemma VolumeTables(cfg: Config, d: Data, e: Effect)
    requires Possible(d, e) && (Touched(e).Some? || e.DeAllocated?)
    ensures var d' := Apply(cfg, d, e);
            && d'.master.byID == d.master.byID && d'.master.byNode == d.master.byNode
            && d'.master.store.Keys == d.master.store.Keys
            && d'.nodes.Keys == d.nodes.Keys
            && (forall n | n in d.nodes :: d'.nodes[n].byID == d.nodes[n].byID)
            && (forall dev | dev in d.master.store :: d'.master.store[dev].id == d.master.store[dev].id)
  {
  }

  /** A node that holds a volume has been added. */
  lemma HolderKnown(cfg: Config, exact: bool, d: Data, phase: Phase, name: string, n: string)
    requires Possible(d, DeAllocated(name, n)) && NodesOk(d) && KeepInv(cfg, exact, d, phase)
    ensures n in d.master.byNode && NodeOf(BoundId(d, name, n)) == n
  {
    HolderNode(d, name, n);
    assert Bound(d.nodes[n], name);
    assert !Empty(d.nodes[n]);
  }

  /** The node a volume effect happens on has been added. */
  lemma WorkerKnown(cfg: Config, exact: bool, d: Data, e: Effect, phase: Phase, phase': Phase)
    requires Possible(d, e) && NodesOk(d) && Fits(cfg, exact, d, e, phase, phase') && KeepInv(cfg, exact, d, phase)
    ensures e.Allocated? ==> e.n in d.master.byNode
    ensures e.DeAllocated? ==> e.n in d.master.byNode
  {
    if e.DeAllocated? {
      HolderKnown(cfg, exact, d, phase, e.name, e.n);
    } else if e.Allocated? {
      assert ById(d.master, e.d);
    }
  }

  lemma VolumeEmpties(cfg: Config, d: Data, e: Effect, n: string)
    requires Possible(d, e) && (Touched(e).Some? || e.DeAllocated?) && n in d.nodes
    requires e.Allocated? ==> e.n != n
    requires e.DeAllocated? ==> e.n != n
    ensures n in Apply(cfg, d, e).nodes && Apply(cfg, d, e).nodes[n] == d.nodes[n]
  {
  }

  lemma VolumeGrants(cfg: Config, d: Data, e: Effect, id: string)
    requires Possible(d, e) && (Touched(e).Some? || e.DeAllocated?) && id in Apply(cfg, d, e).granted
    ensures || id in d.granted
            || (e.Allocated? && id == d.master.store[e.d].id)
            || (e.DeAllocated? && id == BoundId(d, e.name, e.n))
  {
  }

  lemma GrantsKnown(cfg: Config, exact: bool, d: Data, e: Effect, phase: Phase, phase': Phase, id: string)
    requires Possible(d, e) && NodesOk(d) && Fits(cfg, exact, d, e, phase, phase') && KeepInv(cfg, exact, d, phase)
    requires (Touched(e).Some? || e.DeAllocated?) && id in Apply(cfg, d, e).granted
    ensures NodeOf(id) in d.master.byNode
  {
    VolumeGrants(cfg, d, e, id);
    WorkerKnown(cfg, exact, d, e, phase, phase');
    if e.DeAllocated? {
      HolderNode(d, e.name, e.n);
    }
  }

  lemma VolumeKeeps(cfg: Config, exact: bool, d: Data, e: Effect, phase: Phase, phase': Phase)
    requires Possible(d, e) && NodesOk(d) && Fits(cfg, exact, d, e, phase, phase') && Turns(phase, e, phase')
    requires KeepInv(cfg, exact, d, phase) && (Touched(e).Some? || e.DeAllocated?)
    ensures KeepInv(cfg, exact, Apply(cfg, d, e), phase')
  {
    var d' := Apply(cfg, d, e);
    VolumeTables(cfg, d, e);
    WorkerKnown(cfg, exact, d, e, phase, phase');
    forall x | x in d'.master.store ensures ById(d'.master, x) && Kept(cfg, exact, d', phase', x) {
      VolumeKept(cfg, exact, d, e, phase, phase', x);
    }
    forall n | n in d'.master.byNode ensures Complete(d', n) {
      assert Complete(d, n);
    }
    forall n | n in d'.nodes && n !in d'.master.byNode ensures Empty(d'.nodes[n]) {
      VolumeEmpties(cfg, d, e, n);
    }
    forall id | id in d'.granted ensures NodeOf(id) in d'.master.byNode {
      GrantsKnown(cfg, exact, d, e, phase, phase', id);
    }
  }

  // ----- runs

  lemma LightData(cfg: Config, exact: bool, d: Data, e: Effect, phase: Phase, phase': Phase)
    requires Possible(d, e) && !Heavy(e) && Fits(cfg, exact, d, e, phase, phase') && Turns(phase, e, phase')
    ensures var d' := Apply(cfg, d, e); d'.master == d.master && d'.nodes == d.nodes && d'.granted == d.granted
    ensures phase' == phase || (phase' == Settled && EndsQuietly(d, phase))
  {
  }

  /** The accounts depend on nothing else, and survive the start of a new node. */
  lemma SameKeeps(cfg: Config, exact: bool, d: Data, d': Data, phase: Phase)
    requires d'.master == d.master && d'.granted == d.granted && KeepInv(cfg, exact, d, phase)
    requires forall n | n in d.nodes :: n in d'.nodes && d'.nodes[n] == d.nodes[n]
    requires forall n | n in d'.nodes :: n in d.nodes || Empty(d'.nodes[n])
    ensures KeepInv(cfg, exact, d', phase)
  {
    forall dev | dev in d.master.store ensures Kept(cfg, exact, d', phase, dev) {
      assert Kept(cfg, exact, d, phase, dev);
    }
    forall n | n in d.master.byNode ensures Complete(d', n) {
      assert Complete(d, n);
    }
  }

  /** A deletion ends that has nothing to free. */
  lemma QuietEnd(cfg: Config, exact: bool, d: Data, phase: Phase)
    requires KeepInv(cfg, exact, d, phase) && EndsQuietly(d, phase)
    ensures KeepInv(cfg, exact, d, Settled)
  {
    forall dev | dev in d.master.store ensures Kept(cfg, exact, d, Settled, dev) {
      assert Kept(cfg, exact, d, phase, dev);
      if dev == phase.d {
        var granted := Grants(d.granted, d.master.store[dev].id);
        assert granted - {phase.name} == granted;
      }
    }
  }

  lemma LightKeeps(cfg: Config, exact: bool, d: Data, d': Data, phase: Phase, phase': Phase)
    requires d'.master == d.master && d'.nodes == d.nodes && d'.granted == d.granted && KeepInv(cfg, exact, d, phase)
    requires phase' == phase || (phase' == Settled && EndsQuietly(d, phase))
    ensures KeepInv(cfg, exact, d', phase')
  {
    if phase' != phase {
      QuietEnd(cfg, exact, d, phase);
    }
    SameKeeps(cfg, exact, d, d', phase');
  }

  lemma EffectKeeps(cfg: Config, exact: bool, d: Data, e: Effect, phase: Phase, phase': Phase)
    requires Possible(d, e) && NodesOk(d) && Fits(cfg, exact, d, e, phase, phase') && Turns(phase, e, phase')
    requires KeepInv(cfg, exact, d, phase)
    ensures KeepInv(cfg, exact, Apply(cfg, d, e), phase')
  {
    if e.Added? {
      AddedKeeps(cfg, exact, d, e.node, e.reports, e.refs);
    } else if Heavy(e) {
      VolumeKeeps(cfg, exact, d, e, phase, phase');
    } else {
      LightData(cfg, exact, d, e, phase, phase');
      LightKeeps(cfg, exact, d, Apply(cfg, d, e), phase, phase');
    }
  }

  /** The invariants of steady runs proved elsewhere. */
  ghost predicate BaseInv(cfg: Config, s: State) {
    LockInv(cfg, s) && SafetyInv(cfg, s) && OwnershipInv(cfg, s) && ReplicaInv(s)
  }

  /** The names on the node's device are the granted ones. */
  lemma GrantedOnDevice(d: Data, id: string, params: Params, name: string)
    requires NodeSide(d, id, params)
    ensures OnDevice(d, id, name) <==> name in Grants(d.granted, id)
  {
  }

  lemma DeAllocatedFits(cfg: Config, exact: bool, s: State, t: Tid, e: Effect, pc': Pc)
    requires Possible(s.data, e) && e.DeAllocated? && t in s.threads && Orderly(exact, s, Run(t, e, pc'))
    requires var pc := s.threads[t];
             && pc.DeCall? && pc.name == e.name && !Deleting(pc') && pc.d in s.data.master.store
             && Kept(cfg, exact, s.data, PhaseOf(pc), pc.d)
    ensures Fits(cfg, exact, s.data, e, PhaseOf(s.threads[t]), Settled)
  {
    var d, pc := s.data, s.threads[t];
    GrantedOnDevice(d, d.master.store[pc.d].id, d.master.store[pc.d].params, e.name);
  }

  lemma QuietFits(cfg: Config, exact: bool, s: State, t: Tid, e: Effect, pc': Pc, phase: Phase, phase': Phase)
    requires Possible(s.data, e) && !Heavy(e) && t in s.threads && Orderly(exact, s, Run(t, e, pc'))
    requires phase == phase' ||
             (var pc := s.threads[t];
              && phase == PhaseOf(pc) && Deleting(pc) && !Deleting(pc') && pc.d in s.data.master.store
              && Kept(cfg, exact, s.data, phase, pc.d))
    ensures Fits(cfg, exact, s.data, e, phase, phase')
  {
    if phase != phase' {
      var d, pc := s.data, s.threads[t];
      GrantedOnDevice(d, d.master.store[pc.d].id, d.master.store[pc.d].params, pc.name);
    }
  }

  lemma AllocatedFits(cfg: Config, exact: bool, d: Data, pc: Pc, e: Effect, phase': Phase)
    requires Possible(d, e) && MasterInv(cfg, d.master) && PcInv(cfg, d.master, pc) && Targets(d.master, pc)
    requires e.Allocated? && pc == CrCall(e.r, e.n, e.d)
    ensures Fits(cfg, exact, d, e, PhaseOf(pc), phase')
  {
    assert DeviceOk(cfg, d.master.store[e.d]);
  }

  lemma DeviceKept(cfg: Config, exact: bool, s: State, pc: Pc, phase: Phase)
    requires PcInv(cfg, s.data.master, pc) && KeepInv(cfg, exact, s.data, phase) && Deleting(pc)
    ensures pc.d in s.data.master.store && Kept(cfg, exact, s.data, phase, pc.d)
  {
  }

  lemma AddedFits(cfg: Config, exact: bool, s: State, t: Tid, e: Effect, pc': Pc, phase: Phase, phase': Phase)
    requires Possible(s.data, e) && (e.Added? || e.Committed? || e.Dropped?) && Orderly(exact, s, Run(t, e, pc'))
    ensures Fits(cfg, exact, s.data, e, phase, phase')
  {
  }

  lemma HeavyFits(cfg: Config, exact: bool, s: State, t: Tid, e: Effect, pc': Pc)
    requires t in s.threads && Possible(s.data, e) && Heavy(e) && Orderly(exact, s, Run(t, e, pc'))
    requires MasterInv(cfg, s.data.master) && PcInv(cfg, s.data.master, s.threads[t])
    requires Targets(s.data.master, s.threads[t])
    requires EffectSource(s.threads[t], e, pc') && Turns(PhaseOf(s.threads[t]), e, PhaseOf(pc'))
    requires Deleting(s.threads[t]) ==>
               && s.threads[t].d in s.data.master.store
               && Kept(cfg, exact, s.data, PhaseOf(s.threads[t]), s.threads[t].d)
    ensures Fits(cfg, exact, s.data, e, PhaseOf(s.threads[t]), PhaseOf(pc'))
  {
    if e.Allocated? {
      AllocatedFits(cfg, exact, s.data, s.threads[t], e, PhaseOf(pc'));
    } else if e.DeAllocated? {
      DeAllocatedFits(cfg, exact, s, t, e, pc');
    } else {
      AddedFits(cfg, exact, s, t, e, pc', PhaseOf(s.threads[t]), PhaseOf(pc'));
    }
  }

  lemma StepFits(cfg: Config, exact: bool, s: State, t: Tid, e: Effect, pc': Pc, phase: Phase, phase': Phase)
    requires BaseInv(cfg, s) && May(cfg, s, t, e, pc') && Orderly(exact, s, Run(t, e, pc'))
    requires KeepInv(cfg, exact, s.data, phase) && Turns(phase, e, phase')
    requires Heavy(e) || PhaseOf(s.threads[t]) != Settled ==> phase == PhaseOf(s.threads[t]) && phase' == PhaseOf(pc')
    requires !Heavy(e) && PhaseOf(s.threads[t]) == Settled ==> phase' == phase
    ensures Fits(cfg, exact, s.data, e, phase, phase')
  {
    var pc := s.threads[t];
    Sources(cfg, pc, e, pc');
    if Deleting(pc) {
      DeviceKept(cfg, exact, s, pc, phase);
    }
    if Heavy(e) {
      HeavyFits(cfg, exact, s, t, e, pc');
    } else {
      QuietFits(cfg, exact, s, t, e, pc', phase, phase');
    }
  }

  ghost predicate AccountInv(cfg: Config, exact: bool, s: State) {
    exists phase :: Pends(s.threads, phase) && KeepInv(cfg, exact, s.data, phase)
  }

  lemma AccountRun(cfg: Config, exact: bool, s: State, t: Tid, e: Effect, pc': Pc)
    requires BaseInv(cfg, s) && AccountInv(cfg, exact, s) && May(cfg, s, t, e, pc')
    requires Orderly(exact, s, Run(t, e, pc'))
    ensures AccountInv(cfg, exact, Do(cfg, s, t, e, pc'))
  {
    var phase :| Pends(s.threads, phase) && KeepInv(cfg, exact, s.data, phase);
    var phase' := PendsNext(cfg, s, t, e, pc', phase);
    StepFits(cfg, exact, s, t, e, pc', phase, phase');
    EffectKeeps(cfg, exact, s.data, e, phase, phase');
  }

  lemma AccountSpawn(cfg: Config, exact: bool, s: State, t: Tid, call: Call)
    requires AccountInv(cfg, exact, s) && t !in s.threads
    ensures AccountInv(cfg, exact, s.(threads := s.threads[t := Entry(call)]))
  {
    var phase :| Pends(s.threads, phase) && KeepInv(cfg, exact, s.data, phase);
    PendsAside(s.threads, t, Entry(call), phase);
  }

  lemma AccountStart(cfg: Config, exact: bool, s: State, n: string, g: Manager<Ref>)
    requires AccountInv(cfg, exact, s) && n !in s.data.nodes && Booted(g, n)
    ensures AccountInv(cfg, exact, s.(data := s.data.(nodes := s.data.nodes[n := g])))
  {
    var phase :| Pends(s.threads, phase) && KeepInv(cfg, exact, s.data, phase);
    SameKeeps(cfg, exact, s.data, s.data.(nodes := s.data.nodes[n := g]), phase);
  }

  lemma AccountNext(cfg: Config, exact: bool, s: State, step: Step, s': State)
    requires BaseInv(cfg, s) && AccountInv(cfg, exact, s) && Next(cfg, s, step, s') && Orderly(exact, s, step)
    ensures AccountInv(cfg, exact, s')
  {
    match step
    case Spawn(t, call) => AccountSpawn(cfg, exact, s, t, call);
    case Start(n, g) => AccountStart(cfg, exact, s, n, g);
    case Run(t, e, pc') => AccountRun(cfg, exact, s, t, e, pc');
  }

  lemma BaseAlways(cfg: Config, states: seq<State>, steps: seq<Step>, i: nat)
    requires SteadyRun(cfg, states, steps) && i < |states|
    ensures BaseInv(cfg, states[i])
  {
    SteadyIsReplicaRun(cfg, states, steps);
    LockInvAlways(cfg, states, steps, i);
    SafetyAlways(cfg, states, steps, i);
    OwnershipAlways(cfg, states, steps, i);
    ReplicasAlways(cfg, states, steps, i);
  }

  lemma AccountInit(cfg: Config, exact: bool)
    ensures AccountInv(cfg, exact, INIT)
  {
    assert Pends(INIT.threads, Settled) && KeepInv(cfg, exact, INIT.data, Settled);
  }

  lemma AccountStep(cfg: Config, exact: bool, states: seq<State>, steps: seq<Step>, k: nat)
    requires SteadyRun(cfg, states, steps) && k < |steps| && AccountInv(cfg, exact, states[k])
    requires Orderly(exact, states[k], steps[k])
    ensures AccountInv(cfg, exact, states[k + 1])
  {
    BaseAlways(cfg, states, steps, k);
    AccountNext(cfg, exact, states[k], steps[k], states[k + 1]);
  }

  lemma {:induction false} AccountsAlways(cfg: Config, exact: bool, states: seq<State>, steps: seq<Step>, i: nat)
    requires OrderlyRun(cfg, exact, states, steps) && i < |states|
    ensures AccountInv(cfg, exact, states[i])
  {
    if i == 0 {
      AccountInit(cfg, exact);
    } else {
      OrderlyIsSteady(cfg, exact, states, steps);
      AccountsAlways(cfg, exact, states, steps, i - 1);
      AccountStep(cfg, exact, states, steps, i - 1);
    }
  }

  // ----- what it comes to

  /** The device is bound to exactly the volumes granted on it, and these fit. */
  ghost predicate FitsOnNode(cfg: Config, device: Device, granted: map<string, Volume>) {
    && device.volumes.Keys == granted.Keys
    && (IsGpu(device) ==>
          && Used(cfg.parse, granted, MEMORY) <= Limit(cfg.parse, device, MEMORY)
          && Used(cfg.parse, granted, MILLICORES) <= Limit(cfg.parse, device, MILLICORES))
  }

  lemma KnownFits(cfg: Config, exact: bool, d: Data, phase: Phase, dev: Ref)
    requires dev in d.master.store && Kept(cfg, exact, d, phase, dev)
    ensures var id := d.master.store[dev].id;
            var g := d.nodes[NodeOf(id)];
            FitsOnNode(cfg, g.store[g.byID[id]], Grants(d.granted, id))
  {
  }

  lemma EveryNodeFits(cfg: Config, exact: bool, d: Data, phase: Phase, n: string, id: string)
    requires KeepInv(cfg, exact, d, phase) && TablesInv(d.master) && n in d.nodes && NodeOk(d.nodes[n], n)
               && id in d.nodes[n].byID
    ensures FitsOnNode(cfg, d.nodes[n].store[d.nodes[n].byID[id]], Grants(d.granted, id))
  {
    if n in d.master.byNode {
      assert Complete(d, n);
      KnownFits(cfg, exact, d, phase, d.master.byID[id]);
    } else {
      assert Empty(d.nodes[n]);
    }
  }

  /** No overcommitment, end to end, as long as no deletion ends while the device it read still has the
      volume on the node. For every GPU of every node, what the node's own tables say is bound to it are
      the volumes granted on it, and the amounts these were approved with sum to no more than the device's
      memory and its millicores. */
  lemma NodeNeverOvercommitted(cfg: Config, states: seq<State>, steps: seq<Step>, i: nat, n: string, id: string)
    requires OrderlyRun(cfg, false, states, steps) && i < |states|
    requires n in states[i].data.nodes && id in states[i].data.nodes[n].byID
    ensures var d := states[i].data;
            && d.nodes[n].byID[id] in d.nodes[n].store
            && FitsOnNode(cfg, d.nodes[n].store[d.nodes[n].byID[id]], Grants(d.granted, id))
  {
    OrderlyIsSteady(cfg, false, states, steps);
    AccountsAlways(cfg, false, states, steps, i);
    BaseAlways(cfg, states, steps, i);
    var phase :| Pends(states[i].threads, phase) && KeepInv(cfg, false, states[i].data, phase);
    assert NodeOk(states[i].data.nodes[n], n);
    EveryNodeFits(cfg, false, states[i].data, phase, n, id);
  }

  /** If besides no deletion frees a volume of another device, then whenever no call is between the two
      sides, the master's device holds those very volumes. */
  lemma SidesAgree(cfg: Config, states: seq<State>, steps: seq<Step>, i: nat, dev: Ref)
    requires OrderlyRun(cfg, true, states, steps) && i < |states| && dev in states[i].data.master.store
    requires forall t | t in states[i].threads :: PhaseOf(states[i].threads[t]) == Settled
    ensures var d := states[i].data;
            var device := d.master.store[dev];
            && device.volumes == Grants(d.granted, device.id)
            && NodeOf(device.id) in d.nodes && device.id in d.nodes[NodeOf(device.id)].byID
            && d.nodes[NodeOf(device.id)].byID[device.id] in d.nodes[NodeOf(device.id)].store
            && d.nodes[NodeOf(device.id)].store[d.nodes[NodeOf(device.id)].byID[device.id]].volumes.Keys ==
                 device.volumes.Keys
  {
    AccountsAlways(cfg, true, states, steps, i);
    var phase :| Pends(states[i].threads, phase) && KeepInv(cfg, true, states[i].data, phase);
    assert Kept(cfg, true, states[i].data, phase, dev);
  }

  // ----- routes

  /** Reports name their node, a node is added once, and is not removed. */
  ghost predicate AddsOnce(s: State, step: Step) {
    StepWellReported(step) && Keeps(AddedOnce, s, step)
  }

  ghost predicate AllById(m: Master<Ref>) {
    forall dev | dev in m.store :: ById(m, dev)
  }

  lemma AddKeepsById(m: Master<Ref>, n: string, reports: seq<Report>, refs: seq<Ref>)
    requires RefsOk(m) && AllById(m) && |reports| == |refs| && FreshRefs(m, refs) && n !in m.byNode
               && WellReported(n, reports)
    ensures AllById(AddNode(m, n, reports, refs))
  {
    var m' := AddNode(m, n, reports, refs);
    AddNodeStore(m, n, reports, refs);
    forall dev | dev in m'.store ensures ById(m', dev) {
      if dev in m.store {
        AddedOldById(m, n, reports, refs, dev);
      } else {
        var k :| 0 <= k < |refs| && refs[k] == dev;
        AddedNewById(m, n, reports, refs, k);
      }
    }
  }

  lemma EffectKeepsById(cfg: Config, d: Data, e: Effect)
    requires Possible(d, e) && RefsOk(d.master) && AllById(d.master)
    requires e.Added? ==> WellReported(e.node.nodeID, e.reports) && e.node.nodeID !in d.master.byNode
    requires e.Removed? ==> e.l != MasterListener
    ensures AllById(Apply(cfg, d, e).master)
  {
    match e
    case Added(node, reports, refs) => AddKeepsById(d.master, node.nodeID, reports, refs);
    case Committed(r, n, dev) => assert forall x | x in d.master.store :: ById(d.master, x);
    case Dropped(name, dev) => assert forall x | x in d.master.store :: ById(d.master, x);
    case _ =>
  }

  lemma ByIdNext(cfg: Config, s: State, step: Step, s': State)
    requires RefsOk(s.data.master) && AllById(s.data.master) && Next(cfg, s, step, s') && AddsOnce(s, step)
    ensures AllById(s'.data.master)
  {
    if step.Run? {
      EffectKeepsById(cfg, s.data, step.e);
    }
  }

  lemma {:induction false} ByIdAlways(cfg: Config, states: seq<State>, steps: seq<Step>, i: nat)
    requires IsRun(cfg, states, steps) && i < |states|
    requires forall k | 0 <= k < |steps| :: AddsOnce(states[k], steps[k])
    ensures AllById(states[i].data.master)
  {
    if i > 0 {
      ByIdAlways(cfg, states, steps, i - 1);
      OwnershipAlways(cfg, states, steps, i - 1);
      ByIdNext(cfg, states[i - 1], steps[i - 1], states[i]);
    }
  }

  /** As long as nodes are added once and stay, a deletion always finds a node to go to, and it is the one
      in the device's id. */
  lemma DeletesFindTheNode(cfg: Config, states: seq<State>, steps: seq<Step>, i: nat, t: Tid, pc': Pc)
    requires IsRun(cfg, states, steps) && i < |states|
    requires forall k | 0 <= k < |steps| :: AddsOnce(states[k], steps[k])
    requires t in states[i].threads && states[i].threads[t].DeRoute?
    requires VolumeMoves(cfg, states[i].threads[t], Quiet, pc')
    requires Decides(cfg, states[i].threads[t], states[i].data, pc')
    ensures var m, pc := states[i].data.master, states[i].threads[t];
            pc.d in m.store && pc' == DeLook(pc.name, pc.d, pc.live, NodeOf(m.store[pc.d].id))
  {
    CoveredAlways(cfg, states, steps, i);
    OwnershipAlways(cfg, states, steps, i);
    ByIdAlways(cfg, states, steps, i);
    var m, pc := states[i].data.master, states[i].threads[t];
    assert ById(m, pc.d) && Listed(m, NodeOf(m.store[pc.d].id), pc.d);
    ListedHasID(m, NodeOf(m.store[pc.d].id), pc.d);
    RouteUnique(m, m.store[pc.d].id, NodeOf(m.store[pc.d].id), if pc'.DeLook? then Some(pc'.node) else None);
  }
}
