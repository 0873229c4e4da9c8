/** The master's three tables agree, and deletions reach the right node, in runs where every report
    is one a device manager can send: distinct ids, each with its own node's name in front. */
module Ownership {
  import opened Wrappers
  import opened Decimal
  import opened Devices
  import opened Tables
  import opened Registry
  import opened System
  import opened Safety

  ghost predicate WellReported(node: string, reports: seq<Report>) {
    && (forall k | 0 <= k < |reports| :: NodeOf(reports[k].id) == node)
    && (forall j, k | 0 <= j < k < |reports| :: reports[j].id != reports[k].id)
  }

  /** The reports that become devices in this step are well formed. */
  ghost predicate StepWellReported(step: Step) {
    step.Run? && step.e.Added? ==> WellReported(step.e.node.nodeID, step.e.reports)
  }

  /** A device listed under a node carries that node's name in its id, and is the very object byID
      holds for the id. */
  ghost predicate ListingOk(m: Master<Ref>, n: string, d: Ref) {
    d in m.store && NodeOf(m.store[d].id) == n && m.store[d].id in m.byID && m.byID[m.store[d].id] == d
  }

  ghost predicate TablesInv(m: Master<Ref>) {
    && RefsOk(m)
    && (forall n | n in m.byNode :: forall k | 0 <= k < |m.byNode[n]| :: ListingOk(m, n, m.byNode[n][k]))
    && (forall i | i in m.byID :: m.store[m.byID[i]].id == i)
  }

  /** The node a thread has chosen is the one its device belongs to. */
  ghost predicate Targets(m: Master<Ref>, pc: Pc) {
    (pc.CrLook? || pc.CrRead? || pc.CrCall? || pc.CrCommit? || pc.DeLook? || pc.DeReg? || pc.DeCall?) ==>
      pc.d in m.store && NodeOf(m.store[pc.d].id) == pc.node
  }

  ghost predicate OwnershipInv(cfg: Config, s: State) {
    TablesInv(s.data.master) && forall t | t in s.threads :: Targets(s.data.master, s.threads[t])
  }

  lemma ListedOk(m: Master<Ref>, n: string, d: Ref)
    requires TablesInv(m) && Listed(m, n, d)
    ensures ListingOk(m, n, d)
  {
    var k :| 0 <= k < |m.byNode[n]| && m.byNode[n][k] == d;
  }

  /** Whatever node findDeviceNode may answer for an id is the node in the id. */
  lemma RouteOwner(m: Master<Ref>, id: string, n: string)
    requires TablesInv(m) && RouteOutcome(m, id, Some(n))
    ensures NodeOf(id) == n
  {
    var k :| 0 <= k < |m.byNode[n]| && m.store[m.byNode[n][k]].id == id;
    ListedOk(m, n, m.byNode[n][k]);
  }

  /** Deletion is routed to a node that lists the device id, and to no other, even if the device has
      been replaced by a new object since the volume was created. */
  lemma RouteUnique(m: Master<Ref>, id: string, n: string, answer: Option<string>)
    requires TablesInv(m) && RouteOutcome(m, id, answer)
    requires n in m.byNode && id in ListedIDs(m, n)
    ensures answer == Some(n)
  {
    if answer.Some? {
      RouteOwner(m, id, answer.value);
      RouteOwner(m, id, n);
    }
  }

  lemma AddKeepsTables(m: Master<Ref>, n: string, reports: seq<Report>, refs: seq<Ref>)
    requires TablesInv(m) && |reports| == |refs| && FreshRefs(m, refs) && WellReported(n, reports)
    ensures TablesInv(AddNode(m, n, reports, refs))
  {
    var m' := AddNode(m, n, reports, refs);
    AddNodeStore(m, n, reports, refs);
    AddNodeRefsOk(m, n, reports, refs);
    forall i | i in m'.byID ensures m'.store[m'.byID[i]].id == i {
      PutIDsSpec(m.byID - ListedIDs(m, n), reports, refs, i);
    }
    forall n', k | n' in m'.byNode && 0 <= k < |m'.byNode[n']| ensures ListingOk(m', n', m'.byNode[n'][k]) {
      if n' == n {
        NewListing(m, n, reports, refs, k);
      } else {
        OldListing(m, n, reports, refs, n', k);
      }
    }
  }

  lemma NewListing(m: Master<Ref>, n: string, reports: seq<Report>, refs: seq<Ref>, k: nat)
    requires TablesInv(m) && |reports| == |refs| && FreshRefs(m, refs) && WellReported(n, reports) && k < |refs|
    ensures ListingOk(AddNode(m, n, reports, refs), n, refs[k])
  {
    AddNodeStore(m, n, reports, refs);
    PutIDsSpec(m.byID - ListedIDs(m, n), reports, refs, reports[k].id);
  }

  lemma OldListing(m: Master<Ref>, n: string, reports: seq<Report>, refs: seq<Ref>, n': string, k: nat)
    requires TablesInv(m) && |reports| == |refs| && FreshRefs(m, refs) && WellReported(n, reports)
    requires n' != n && n' in m.byNode && k < |m.byNode[n']|
    ensures ListingOk(AddNode(m, n, reports, refs), n', m.byNode[n'][k])
  {
    var d := m.byNode[n'][k];
    AddNodeStore(m, n, reports, refs);
    var id := m.store[d].id;
    if id in ListedIDs(m, n) {
      RouteOwner(m, id, n);
    }
    PutIDsSpec(m.byID - ListedIDs(m, n), reports, refs, id);
  }

  lemma EffectKeepsTables(cfg: Config, d: Data, e: Effect)
    requires Possible(d, e) && TablesInv(d.master)
    requires e.Added? ==> WellReported(e.node.nodeID, e.reports)
    ensures TablesInv(Apply(cfg, d, e).master)
  {
    match e
    case Added(node, reports, refs) => AddKeepsTables(d.master, node.nodeID, reports, refs);
    case _ =>
  }

  lemma VolumeTargets(cfg: Config, pc: Pc, d: Data, e: Effect, pc': Pc)
    requires VolumeMoves(cfg, pc, e, pc') && Decides(cfg, pc, d, pc') && TablesInv(d.master) && Targets(d.master, pc)
    ensures Targets(d.master, pc')
  {
    match pc
    case CrFind(_) =>
      if pc'.CrLook? {
        ListedOk(d.master, pc'.node, pc'.d);
      }
    case DeRoute(_, dev, _) =>
      if pc'.DeLook? {
        RouteOwner(d.master, d.master.store[dev].id, pc'.node);
      }
    case _ =>
  }

  lemma IdsStay(cfg: Config, d: Data, e: Effect)
    requires Possible(d, e) && RefsOk(d.master)
    ensures forall x | x in d.master.store :: x in Apply(cfg, d, e).master.store
              && Apply(cfg, d, e).master.store[x].id == d.master.store[x].id
  {
    forall x | x in d.master.store
      ensures x in Apply(cfg, d, e).master.store && Apply(cfg, d, e).master.store[x].id == d.master.store[x].id
    {
      StoreGrows(cfg, d, e, x);
    }
  }

  lemma TargetsFrame(m: Master<Ref>, m': Master<Ref>, pc: Pc)
    requires Targets(m, pc) && forall x | x in m.store :: x in m'.store && m'.store[x].id == m.store[x].id
    ensures Targets(m', pc)
  {
  }

  lemma TakenTargets(cfg: Config, m: Master<Ref>, pc: Pc)
    requires Wants(cfg, pc).Some? && Targets(m, pc)
    ensures Targets(m, Taken(cfg, pc))
  {
  }

  lemma NoDeviceTargets(m: Master<Ref>, pc: Pc)
    ensures DeviceOf(pc).None? ==> Targets(m, pc)
  {
  }

  lemma StepTargets(cfg: Config, pc: Pc, d: Data, e: Effect, pc': Pc)
    requires Moves(cfg, pc, e, pc') && Decides(cfg, pc, d, pc') && TablesInv(d.master) && Targets(d.master, pc)
    ensures Targets(d.master, pc')
  {
    if Wants(cfg, pc).Some? {
      TakenTargets(cfg, d.master, pc);
    } else if KeyOf(pc).Some? {
      RegistryTouchesNoVolume(cfg, pc, e, pc');
      NoDeviceTargets(d.master, pc');
    } else if HoldsMaster(pc) || pc.DeRead? {
      VolumeTargets(cfg, pc, d, e, pc');
    } else {
      CapacityTouchesNothing(cfg, pc, e, pc');
      NoDeviceTargets(d.master, pc');
    }
  }

  lemma OwnershipNext(cfg: Config, s: State, step: Step, s': State)
    requires OwnershipInv(cfg, s) && Next(cfg, s, step, s') && StepWellReported(step)
    ensures OwnershipInv(cfg, s')
  {
    match step
    case Spawn(t, call) => NoDeviceTargets(s.data.master, Entry(call));
    case Start(_, _) =>
    case Run(t, e, pc') =>
      EffectKeepsTables(cfg, s.data, e);
      StepTargets(cfg, s.threads[t], s.data, e, pc');
      IdsStay(cfg, s.data, e);
      forall u | u in s'.threads ensures Targets(s'.data.master, s'.threads[u]) {
        TargetsFrame(s.data.master, s'.data.master, s'.threads[u]);
      }
  }

  lemma {:induction false} OwnershipAlways(cfg: Config, states: seq<State>, steps: seq<Step>, i: nat)
    requires IsRun(cfg, states, steps) && i < |states|
    requires forall k | 0 <= k < |steps| :: StepWellReported(steps[k])
    ensures OwnershipInv(cfg, states[i])
  {
    if i > 0 {
      OwnershipAlways(cfg, states, steps, i - 1);
      OwnershipNext(cfg, states[i - 1], steps[i - 1], states[i]);
    }
  }

  /** Every device listed under a node is the very object byID holds for its id. */
  lemma TablesAgree(cfg: Config, states: seq<State>, steps: seq<Step>, i: nat, n: string, d: Ref)
    requires IsRun(cfg, states, steps) && i < |states|
    requires forall k | 0 <= k < |steps| :: StepWellReported(steps[k])
    requires Listed(states[i].data.master, n, d)
    ensures var m := states[i].data.master;
            d in m.store && m.store[d].id in m.byID && m.byID[m.store[d].id] == d && NodeOf(m.store[d].id) == n
  {
    OwnershipAlways(cfg, states, steps, i);
    ListedOk(states[i].data.master, n, d);
  }

  // ----- without OnNodeDeleted

  ghost predicate NoRemoval(step: Step) {
    step.Run? && step.e.Removed? ==> step.e.l != MasterListener
  }

  /** Everything in byID is listed under the node in its id. */
  ghost predicate Covered(m: Master<Ref>) {
    forall i | i in m.byID :: Listed(m, NodeOf(i), m.byID[i])
  }

  lemma ListedHasID(m: Master<Ref>, n: string, d: Ref)
    requires RefsOk(m) && Listed(m, n, d) && d in m.store
    ensures m.store[d].id in ListedIDs(m, n)
  {
    var k :| 0 <= k < |m.byNode[n]| && m.byNode[n][k] == d;
  }

  lemma AddKeepsCovered(m: Master<Ref>, n: string, reports: seq<Report>, refs: seq<Ref>)
    requires TablesInv(m) && Covered(m) && |reports| == |refs| && FreshRefs(m, refs) && WellReported(n, reports)
    ensures Covered(AddNode(m, n, reports, refs))
  {
    var m' := AddNode(m, n, reports, refs);
    forall i | i in m'.byID ensures Listed(m', NodeOf(i), m'.byID[i]) {
      PutIDsSpec(m.byID - ListedIDs(m, n), reports, refs, i);
      if k :| 0 <= k < |reports| && reports[k].id == i {
        assert m'.byID[i] in refs;
      } else {
        assert Listed(m, NodeOf(i), m.byID[i]);
        ListedHasID(m, NodeOf(i), m.byID[i]);
      }
    }
  }

  lemma EffectKeepsCovered(cfg: Config, d: Data, e: Effect)
    requires Possible(d, e) && TablesInv(d.master) && Covered(d.master)
    requires e.Added? ==> WellReported(e.node.nodeID, e.reports)
    requires e.Removed? ==> e.l != MasterListener
    ensures Covered(Apply(cfg, d, e).master)
  {
    match e
    case Added(node, reports, refs) => AddKeepsCovered(d.master, node.nodeID, reports, refs);
    case Committed(r, n, dev) =>
      assert forall i | i in d.master.byID :: Listed(d.master, NodeOf(i), d.master.byID[i]);
    case Dropped(name, dev) =>
      assert forall i | i in d.master.byID :: Listed(d.master, NodeOf(i), d.master.byID[i]);
    case _ =>
      assert forall i | i in d.master.byID :: Listed(d.master, NodeOf(i), d.master.byID[i]);
  }

  lemma {:induction false} CoveredAlways(cfg: Config, states: seq<State>, steps: seq<Step>, i: nat)
    requires IsRun(cfg, states, steps) && i < |states|
    requires forall k | 0 <= k < |steps| :: StepWellReported(steps[k]) && NoRemoval(steps[k])
    ensures Covered(states[i].data.master)
  {
    if i > 0 {
      CoveredAlways(cfg, states, steps, i - 1);
      OwnershipAlways(cfg, states, steps, i - 1);
      assert Next(cfg, states[i - 1], steps[i - 1], states[i]);
      if steps[i - 1].Run? {
        EffectKeepsCovered(cfg, states[i - 1].data, steps[i - 1].e);
      }
    }
  }

  /** As long as the master is told of no node leaving, byID holds exactly the devices of the node
      lists: a device that a later report no longer has is gone from byID too. */
  lemma TablesCoincide(cfg: Config, states: seq<State>, steps: seq<Step>, i: nat, d: Ref)
    requires IsRun(cfg, states, steps) && i < |states|
    requires forall k | 0 <= k < |steps| :: StepWellReported(steps[k]) && NoRemoval(steps[k])
    ensures d in states[i].data.master.byID.Values <==> exists n :: Listed(states[i].data.master, n, d)
  {
    CoveredAlways(cfg, states, steps, i);
    OwnershipAlways(cfg, states, steps, i);
    var m := states[i].data.master;
    if n :| Listed(m, n, d) {
      ListedOk(m, n, d);
    }
  }

  // ----- where a volume was created

  /** Every volume's topology names the node of the device it is on. */
  ghost predicate Placed(cfg: Config, m: Master<Ref>) {
    forall d, v | d in m.store && v in m.store[d].volumes :: PlacedOn(cfg, m.store[d], v)
  }

  ghost predicate PlacedOn(cfg: Config, d: Device, v: string)
    requires v in d.volumes
  {
    d.volumes[v].Vol? && d.volumes[v].topology == [map[cfg.key := NodeOf(d.id)]]
  }

  lemma AddKeepsPlaced(cfg: Config, m: Master<Ref>, n: string, reports: seq<Report>, refs: seq<Ref>)
    requires RefsOk(m) && Placed(cfg, m) && |reports| == |refs| && FreshRefs(m, refs)
    ensures Placed(cfg, AddNode(m, n, reports, refs))
  {
    AddNodeStore(m, n, reports, refs);
    var m' := AddNode(m, n, reports, refs);
    forall d, v | d in m'.store && v in m'.store[d].volumes ensures PlacedOn(cfg, m'.store[d], v) {
      if d in m.store {
        assert PlacedOn(cfg, m.store[d], v);
      }
    }
  }

  lemma CommitKeepsPlaced(cfg: Config, m: Master<Ref>, r: Request, n: string, dev: Ref)
    requires Placed(cfg, m) && dev in m.store && NodeOf(m.store[dev].id) == n
    ensures Placed(cfg, SetVolume(m, dev, r.name, VolumeOf(cfg, m, r, n, dev)))
  {
    var m' := SetVolume(m, dev, r.name, VolumeOf(cfg, m, r, n, dev));
    forall d, v | d in m'.store && v in m'.store[d].volumes ensures PlacedOn(cfg, m'.store[d], v) {
      if d != dev || v != r.name {
        assert PlacedOn(cfg, m.store[d], v);
      }
    }
  }

  lemma DropKeepsPlaced(cfg: Config, m: Master<Ref>, dev: Ref, name: string)
    requires Placed(cfg, m) && dev in m.store
    ensures Placed(cfg, DropVolume(m, dev, name))
  {
    var m' := DropVolume(m, dev, name);
    forall d, v | d in m'.store && v in m'.store[d].volumes ensures PlacedOn(cfg, m'.store[d], v) {
      assert PlacedOn(cfg, m.store[d], v);
    }
  }

  lemma StepKeepsPlaced(cfg: Config, d: Data, pc: Pc, e: Effect, pc': Pc)
    requires Possible(d, e) && RefsOk(d.master) && Placed(cfg, d.master)
    requires Targets(d.master, pc) && Moves(cfg, pc, e, pc')
    ensures Placed(cfg, Apply(cfg, d, e).master)
  {
    match e
    case Added(node, reports, refs) => AddKeepsPlaced(cfg, d.master, node.nodeID, reports, refs);
    case Committed(r, n, dev) =>
      WritersMove(cfg, pc, e, pc');
      CommitSource(cfg, pc, e, pc');
      CommitKeepsPlaced(cfg, d.master, r, n, dev);
    case Dropped(name, dev) => DropKeepsPlaced(cfg, d.master, dev, name);
    case _ =>
  }

  lemma {:induction false} PlacedAlways(cfg: Config, states: seq<State>, steps: seq<Step>, i: nat)
    requires IsRun(cfg, states, steps) && i < |states|
    requires forall k | 0 <= k < |steps| :: StepWellReported(steps[k])
    ensures Placed(cfg, states[i].data.master)
  {
    if i > 0 {
      PlacedAlways(cfg, states, steps, i - 1);
      OwnershipAlways(cfg, states, steps, i - 1);
      var s, step := states[i - 1], steps[i - 1];
      assert Next(cfg, s, step, states[i]);
      if step.Run? {
        StepKeepsPlaced(cfg, s.data, s.threads[step.t], step.e, step.to);
      }
    }
  }

  /** Wherever a deletion of a live volume is sent, it is the node in the volume's own topology, the one
      it was created on; and it is sent there as long as that node lists the device's id, even if it has
      registered again since. */
  lemma DeletesReachTheNode(cfg: Config, states: seq<State>, steps: seq<Step>, i: nat, v: string,
                            answer: Option<string>)
    requires IsRun(cfg, states, steps) && i < |states|
    requires forall k | 0 <= k < |steps| :: StepWellReported(steps[k])
    requires RefsOk(states[i].data.master) && v in states[i].data.master.byVolume
    requires var m := states[i].data.master; RouteOutcome(m, m.store[m.byVolume[v]].id, answer)
    ensures var m := states[i].data.master;
            var d := m.store[m.byVolume[v]];
            && v in d.volumes && d.volumes[v].Vol?
            && (answer.Some? ==> d.volumes[v].topology == [map[cfg.key := answer.value]])
            && (forall n | n in m.byNode && d.id in ListedIDs(m, n) ::
                  answer == Some(n) && d.volumes[v].topology == [map[cfg.key := n]])
  {
    OwnershipAlways(cfg, states, steps, i);
    PlacedAlways(cfg, states, steps, i);
    AlwaysIndexed(cfg, states, steps, i, v);
    var m := states[i].data.master;
    var d := m.store[m.byVolume[v]];
    assert PlacedOn(cfg, d, v);
    if answer.Some? {
      RouteOwner(m, d.id, answer.value);
    }
    forall n | n in m.byNode && d.id in ListedIDs(m, n) ensures answer == Some(n) {
      RouteUnique(m, d.id, n, answer);
    }
  }
}
