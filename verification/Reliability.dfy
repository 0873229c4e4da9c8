/** What the nodes' own accounting rests on: the promises of nodes, network and callers, one by one, and
    what deletions have to do. */
module Reliability {
  import opened Decimal
  import opened Tables
  import opened Registry
  import opened System
  import opened Ownership
  import opened Replicas
  import opened NodeAllocator

  /** The reports are those of the node's own device manager: all of its devices, with their parameters. */
  ghost predicate HonestReports(d: Data, n: string, reports: seq<Report>) {
    && n in d.nodes
    && (forall k | 0 <= k < |reports| ::
          && reports[k].id in d.nodes[n].byID && d.nodes[n].byID[reports[k].id] in d.nodes[n].store
          && reports[k].params == d.nodes[n].store[d.nodes[n].byID[reports[k].id]].params)
    && (forall i | i in d.nodes[n].byID :: exists k :: 0 <= k < |reports| && reports[k].id == i)
  }

  /** A node's answer to ListVolumes is such a report, whatever the order of its map. */
  lemma NodeReports(d: Data, n: string, order: seq<string>, entries: seq<Report>)
    requires n in d.nodes && NodeOk(d.nodes[n], n) && Reports(d.nodes[n], order, entries)
    ensures WellReported(n, entries) && HonestReports(d, n, entries)
  {
    forall i | i in d.nodes[n].byID ensures exists k :: 0 <= k < |entries| && entries[k].id == i {
      var k :| 0 <= k < |order| && order[k] == i;
      assert entries[k].id == i;
    }
  }

  // ----- promises

  datatype Promise =
    | HonestNodes    // what a node reports are its devices
    | AddedOnce      // a node is added to the master once, and is not removed
    | NoRestart      // a node starts once
    | NoLostReply    // an accepted CreateVolume is answered
    | DeletesReach   // the deletion of a live volume, once begun, is carried out on its node
    | DeletesArrive  // no call that asks a node to free a volume is lost
    | NoLiveName     // no node accepts a name that the master holds

  ghost predicate KeepsRun(p: Promise, d: Data, pc: Pc, e: Effect, pc': Pc) {
    match p
    case HonestNodes =>
      e.Added? ==> WellReported(e.node.nodeID, e.reports) && HonestReports(d, e.node.nodeID, e.reports)
    case AddedOnce => (e.Added? ==> e.node.nodeID !in d.master.byNode) && (e.Removed? ==> e.l != MasterListener)
    case NoRestart => true
    case NoLostReply => e.Allocated? ==> pc'.CrCommit?
    case DeletesReach => Deleting(pc) && pc.live ==> Deleting(pc') || e.DeAllocated?
    case DeletesArrive => pc.DeCall? && e == Quiet ==> !Possible(d, DeAllocated(pc.name, pc.node))
    case NoLiveName => e.Allocated? ==> e.r.name !in d.master.byVolume
  }

  ghost predicate Keeps(p: Promise, s: State, step: Step) {
    match step
    case Start(n, _) => p == NoRestart ==> n !in s.data.nodes
    case Spawn(_, _) => true
    case Run(t, e, pc') => t in s.threads && KeepsRun(p, s.data, s.threads[t], e, pc')
  }

  /** Nodes and network keep their promises about creates and registrations. */
  ghost predicate Steady(s: State, step: Step) {
    Keeps(HonestNodes, s, step) && Keeps(AddedOnce, s, step) && Keeps(NoRestart, s, step) && Keeps(NoLostReply, s, step)
  }

  /** And about deletions. */
  ghost predicate Dependable(s: State, step: Step) {
    Steady(s, step) && Keeps(DeletesReach, s, step)
  }

  // ----- what deletions do

  /** The node that owns the device id has the name on that device. */
  ghost predicate OnDevice(d: Data, id: string, name: string) {
    && NodeOf(id) in d.nodes
    && var g := d.nodes[NodeOf(id)]; id in g.byID && g.byID[id] in g.store && name in g.store[g.byID[id]].volumes
  }

  /** The effect frees a volume from the device with this id. */
  ghost predicate FreesFrom(d: Data, e: Effect, id: string) {
    && e.DeAllocated? && e.n in d.nodes
    && var g := d.nodes[e.n];
       e.name in g.byVolume && g.byVolume[e.name] in g.store && g.store[g.byVolume[e.name]].id == id
  }

  /** A deletion under way does not end while the device it read still has the name on the node, unless
      it frees it from there. */
  ghost predicate Frees(s: State, step: Step) {
    step.Run? && step.t in s.threads ==>
      var pc := s.threads[step.t];
      Deleting(pc) && pc.d in s.data.master.store && OnDevice(s.data, s.data.master.store[pc.d].id, pc.name) ==>
        Deleting(step.to) || FreesFrom(s.data, step.e, s.data.master.store[pc.d].id)
  }

  /** And it frees nothing from any other device. */
  ghost predicate FreesOnly(s: State, step: Step) {
    step.Run? && step.t in s.threads && step.e.DeAllocated? ==>
      var pc := s.threads[step.t];
      pc.DeCall? && pc.d in s.data.master.store && FreesFrom(s.data, step.e, s.data.master.store[pc.d].id)
  }

  ghost predicate SteadyRun(cfg: Config, states: seq<State>, steps: seq<Step>) {
    IsRun(cfg, states, steps) && forall k | 0 <= k < |steps| :: Steady(states[k], steps[k])
  }

  ghost predicate DependableRun(cfg: Config, states: seq<State>, steps: seq<Step>) {
    IsRun(cfg, states, steps) && forall k | 0 <= k < |steps| :: Dependable(states[k], steps[k])
  }

  /** What the accounts ask of a step; exact says which accounts. */
  ghost predicate Orderly(exact: bool, s: State, step: Step) {
    Steady(s, step) && Frees(s, step) && (exact ==> FreesOnly(s, step))
  }

  ghost predicate OrderlyRun(cfg: Config, exact: bool, states: seq<State>, steps: seq<Step>) {
    IsRun(cfg, states, steps) && forall k | 0 <= k < |steps| :: Orderly(exact, states[k], steps[k])
  }

  lemma SteadyIsReplicaRule(s: State, step: Step)
    requires Steady(s, step)
    ensures ReplicaRule(s.data, step)
  {
  }

  lemma SteadyIsReplicaRun(cfg: Config, states: seq<State>, steps: seq<Step>)
    requires SteadyRun(cfg, states, steps)
    ensures ReplicaRun(cfg, states, steps)
  {
    forall k | 0 <= k < |steps| ensures ReplicaRule(states[k].data, steps[k]) {
      SteadyIsReplicaRule(states[k], steps[k]);
    }
  }

  lemma OrderlyIsSteady(cfg: Config, exact: bool, states: seq<State>, steps: seq<Step>)
    requires OrderlyRun(cfg, exact, states, steps)
    ensures SteadyRun(cfg, states, steps)
  {
    forall k | 0 <= k < |steps| ensures Steady(states[k], steps[k]) {
      assert Orderly(exact, states[k], steps[k]);
    }
  }
}
