/** The master and the nodes agree on every live volume, although remote calls may fail before or
    after taking effect. */
module Replicas {
  import opened Decimal
  import opened Tables
  import opened System
  import opened Locks
  import opened Safety
  import opened Ownership

  /** What a device manager keeps: its devices under their own ids, and every volume it knows by name
      among the volumes of one of them. */
  ghost predicate NodeOk(g: Manager<Ref>, n: string) {
    && ManagerRefsOk(g)
    && (forall i | i in g.byID :: NodeOf(i) == n && g.store[g.byID[i]].id == i)
    && (forall v | v in g.byVolume :: Bound(g, v))
  }

  ghost predicate Bound(g: Manager<Ref>, v: string)
    requires v in g.byVolume
  {
    && g.byVolume[v] in g.store
    && var dev := g.store[g.byVolume[v]]; dev.id in g.byID && g.byID[dev.id] == g.byVolume[v] && v in dev.volumes
  }

  ghost predicate NodesOk(d: Data) {
    forall n | n in d.nodes :: NodeOk(d.nodes[n], n)
  }

  /** The node that owns the device id has the volume on that device. */
  ghost predicate Holds(d: Data, v: string, id: string) {
    && NodeOf(id) in d.nodes
    && var g := d.nodes[NodeOf(id)];
       v in g.byVolume && g.byVolume[v] in g.store && g.store[g.byVolume[v]].id == id
  }

  ghost predicate HoldsLive(d: Data, v: string) {
    v in d.master.byVolume && d.master.byVolume[v] in d.master.store
        && Holds(d, v, d.master.store[d.master.byVolume[v]].id)
  }

  /** Some thread is about to record the volume. */
  ghost predicate Committing(threads: map<Tid, Pc>, v: string) {
    exists t :: t in threads && threads[t].CrCommit? && threads[t].r.name == v
  }

  predicate Deleting(pc: Pc) {
    pc.DeRoute? || pc.DeLook? || pc.DeReg? || pc.DeCall?
  }

  ghost predicate PcReplica(d: Data, pc: Pc) {
    && (pc.CrCommit? ==> pc.d in d.master.store && Holds(d, pc.r.name, d.master.store[pc.d].id))
    && (Deleting(pc) ==>
          && pc.d in d.master.store && pc.name !in d.master.byVolume
          && (pc.live ==> Holds(d, pc.name, d.master.store[pc.d].id)))
  }

  ghost predicate ReplicaInv(s: State) {
    && NodesOk(s.data)
    && (forall v | v in s.data.master.byVolume :: HoldsLive(s.data, v) || Committing(s.threads, v))
    && (forall t | t in s.threads :: PcReplica(s.data, s.threads[t]))
  }

  /** The volume the master holds under this name, if any, lives on the node. */
  ghost predicate LiveOn(m: Master<Ref>, name: string, n: string) {
    name in m.byVolume && m.byVolume[name] in m.store && NodeOf(m.store[m.byVolume[name]].id) == n
  }

  /** Nodes report well-formed ids and do not restart, and no node accepts, with its reply lost, a name
      that the master still holds on that node. */
  ghost predicate ReplicaRule(d: Data, step: Step) {
    && StepWellReported(step)
    && (step.Start? ==> step.node !in d.nodes)
    && (step.Run? && step.e.Allocated? && step.to.MaOut? ==> !LiveOn(d.master, step.e.r.name, step.e.n))
  }

  // ----- single effects

  lemma BootedOk(g: Manager<Ref>, n: string)
    requires Booted(g, n)
    ensures NodeOk(g, n)
  {
  }

  lemma AllocateKeepsNode(g: Manager<Ref>, n: string, id: string, name: string)
    requires NodeOk(g, n) && Allocate(g, id, name).Some?
    ensures var g' := Allocate(g, id, name).value;
            && NodeOk(g', n)
            && name in g'.byVolume && g'.store[g'.byVolume[name]].id == id
            && (forall v | v in g.byVolume && v != name :: v in g'.byVolume
                  && g'.store[g'.byVolume[v]].id == g.store[g.byVolume[v]].id)
  {
    var g' := Allocate(g, id, name).value;
    forall v | v in g'.byVolume ensures Bound(g', v) {
      if v != name {
        assert Bound(g, v);
      }
    }
  }

  lemma DeAllocateKeepsNode(g: Manager<Ref>, n: string, name: string)
    requires NodeOk(g, n) && DeAllocate(g, name).Some?
    ensures var g' := DeAllocate(g, name).value;
            && NodeOk(g', n)
            && (forall v | v in g.byVolume && v != name :: v in g'.byVolume
                  && g'.store[g'.byVolume[v]].id == g.store[g.byVolume[v]].id)
  {
    var g' := DeAllocate(g, name).value;
    forall v | v in g'.byVolume ensures Bound(g', v) {
      assert Bound(g, v);
    }
  }

  lemma EffectKeepsNodes(cfg: Config, d: Data, e: Effect)
    requires Possible(d, e) && NodesOk(d)
    ensures NodesOk(Apply(cfg, d, e))
  {
    match e
    case Allocated(r, n, dev) => AllocateKeepsNode(d.nodes[n], n, d.master.store[dev].id, r.name);
    case DeAllocated(name, n) => DeAllocateKeepsNode(d.nodes[n], n, name);
    case _ =>
  }

  lemma HoldsPut(d: Data, d': Data, n: string, g: Manager<Ref>, v: string, id: string)
    requires Holds(d, v, id) && d'.nodes == d.nodes[n := g]
    requires n == NodeOf(id) ==> v in g.byVolume && g.byVolume[v] in g.store && g.store[g.byVolume[v]].id == id
    ensures Holds(d', v, id)
  {
  }

  lemma NodesUntouched(cfg: Config, d: Data, e: Effect)
    requires Possible(d, e) && !e.Allocated? && !e.DeAllocated?
    ensures Apply(cfg, d, e).nodes == d.nodes
  {
  }

  /** A call about one name does not disturb another. */
  lemma HoldsFrame(cfg: Config, d: Data, e: Effect, v: string, id: string)
    requires Possible(d, e) && NodesOk(d) && Holds(d, v, id)
    requires e.Allocated? ==> e.r.name != v || e.n != NodeOf(id)
    requires e.DeAllocated? ==> e.name != v || e.n != NodeOf(id)
    ensures Holds(Apply(cfg, d, e), v, id)
  {
    match e
    case Allocated(r, n, dev) =>
      AllocateKeepsNode(d.nodes[n], n, d.master.store[dev].id, r.name);
      HoldsPut(d, Apply(cfg, d, e), n, Allocate(d.nodes[n], d.master.store[dev].id, r.name).value, v, id);
    case DeAllocated(name, n) =>
      DeAllocateKeepsNode(d.nodes[n], n, name);
      HoldsPut(d, Apply(cfg, d, e), n, DeAllocate(d.nodes[n], name).value, v, id);
    case _ => NodesUntouched(cfg, d, e);
  }

  predicate Heavy(e: Effect) {
    e.Added? || e.Allocated? || e.DeAllocated? || e.Committed? || e.Dropped?
  }

  lemma LightEffects(cfg: Config, d: Data, e: Effect)
    requires Possible(d, e) && !Heavy(e)
    ensures var d' := Apply(cfg, d, e);
            d'.nodes == d.nodes && d'.master.byVolume == d.master.byVolume && d'.master.store == d.master.store
  {
  }

  // ----- where claims and effects come from

  /** A thread comes to claim something about a node only by these steps. */
  ghost predicate ClaimSource(pc: Pc, e: Effect, pc': Pc) {
    && (pc'.CrCommit? ==> pc.CrCall? && e == Allocated(pc.r, pc.node, pc.d) && pc' == CrCommit(pc.r, pc.node, pc.d))
    && (Deleting(pc') ==>
          || (pc.DeTables? && e == Dropped(pc.name, pc.d) && pc'.DeRoute? && pc'.name == pc.name && pc'.d == pc.d)
          || (Deleting(pc) && e == Quiet && pc'.name == pc.name && pc'.d == pc.d && pc'.live == pc.live))
  }

  /** A volume is only touched by the thread whose call is about it. */
  ghost predicate EffectSource(pc: Pc, e: Effect, pc': Pc) {
    match e
    case Allocated(r, n, d) => pc == CrCall(r, n, d) && (pc' == CrCommit(r, n, d) || pc'.MaOut?)
    case Committed(r, n, d) => pc == CrCommit(r, n, d)
    case Dropped(name, d) => pc == DeTables(name, d)
    case DeAllocated(name, n) => pc.DeCall? && pc.name == name && pc.node == n
    case Added(_, _, _) => pc.AddTables?
    case _ => !pc.CrCommit?
  }

  lemma VolumeSources(cfg: Config, pc: Pc, e: Effect, pc': Pc)
    requires VolumeMoves(cfg, pc, e, pc')
    ensures ClaimSource(pc, e, pc')
  {
  }

  lemma VolumeEffectSources(cfg: Config, pc: Pc, e: Effect, pc': Pc)
    requires VolumeMoves(cfg, pc, e, pc')
    ensures EffectSource(pc, e, pc')
  {
  }

  lemma RegistrySources(cfg: Config, pc: Pc, e: Effect, pc': Pc)
    requires RegistryMoves(cfg, pc, e, pc')
    ensures !pc'.CrCommit? && !Deleting(pc')
    ensures EffectSource(pc, e, pc')
  {
  }

  lemma CapacitySources(cfg: Config, pc: Pc, e: Effect, pc': Pc)
    requires CapacityMoves(pc, e, pc')
    ensures !pc'.CrCommit? && !Deleting(pc') && EffectSource(pc, e, pc')
  {
  }

  lemma TakenSources(cfg: Config, pc: Pc)
    requires Wants(cfg, pc).Some?
    ensures ClaimSource(pc, Quiet, Taken(cfg, pc)) && !pc.CrCommit?
  {
  }

  lemma Sources(cfg: Config, pc: Pc, e: Effect, pc': Pc)
    requires Moves(cfg, pc, e, pc')
    ensures ClaimSource(pc, e, pc') && EffectSource(pc, e, pc')
  {
    if Wants(cfg, pc).Some? {
      TakenSources(cfg, pc);
    } else if KeyOf(pc).Some? {
      RegistrySources(cfg, pc, e, pc');
    } else if HoldsMaster(pc) || pc.DeRead? {
      VolumeSources(cfg, pc, e, pc');
      VolumeEffectSources(cfg, pc, e, pc');
    } else {
      CapacitySources(cfg, pc, e, pc');
    }
  }

  lemma HeavyHoldsMaster(pc: Pc, e: Effect, pc': Pc)
    requires EffectSource(pc, e, pc') && Heavy(e)
    ensures HoldsMaster(pc)
  {
  }

  lemma OneMaster(cfg: Config, s: State, t: Tid)
    requires LockInv(cfg, s) && t in s.threads && HoldsMaster(s.threads[t])
    ensures forall u | u in s.threads && u != t :: !HoldsMaster(s.threads[u])
  {
    forall u | u in s.threads && u != t ensures !HoldsMaster(s.threads[u]) {
      Exclusive(cfg, s, t, u);
      MasterHeld(cfg, s.threads[t]);
      MasterHeld(cfg, s.threads[u]);
    }
  }

  lemma MasterHeld(cfg: Config, pc: Pc)
    ensures HoldsMaster(pc) <==> MasterMutex in Held(cfg, pc)
  {
  }

  // ----- the claims of the threads

  lemma NoClaim(d: Data, pc: Pc)
    requires !HoldsMaster(pc)
    ensures PcReplica(d, pc)
  {
  }

  /** Nobody but the thread itself can be committing while it holds the master mutex. */
  lemma OnlyICommit(cfg: Config, s: State, t: Tid, v: string)
    requires LockInv(cfg, s) && ReplicaInv(s) && t in s.threads && HoldsMaster(s.threads[t])
               && v in s.data.master.byVolume
    ensures HoldsLive(s.data, v) || (s.threads[t].CrCommit? && s.threads[t].r.name == v)
  {
    OneMaster(cfg, s, t);
  }

  lemma CommitClaim(cfg: Config, d: Data, r: Request, n: string, dev: Ref)
    requires Possible(d, Allocated(r, n, dev)) && NodesOk(d) && NodeOf(d.master.store[dev].id) == n
    ensures PcReplica(Apply(cfg, d, Allocated(r, n, dev)), CrCommit(r, n, dev))
  {
    AllocateKeepsNode(d.nodes[n], n, d.master.store[dev].id, r.name);
  }

  lemma DropClaim(cfg: Config, d: Data, name: string, dev: Ref, live: bool)
    requires dev in d.master.store
    requires live ==> HoldsLive(d, name) && d.master.byVolume[name] == dev
    ensures PcReplica(Apply(cfg, d, Dropped(name, dev)), DeRoute(name, dev, live))
  {
  }

  lemma OwnReplica(cfg: Config, s: State, t: Tid, e: Effect, pc': Pc)
    requires LockInv(cfg, s) && OwnershipInv(cfg, s) && ReplicaInv(s) && May(cfg, s, t, e, pc')
    requires ClaimSource(s.threads[t], e, pc')
    ensures PcReplica(Apply(cfg, s.data, e), pc')
  {
    var pc := s.threads[t];
    if pc'.CrCommit? {
      assert Targets(s.data.master, pc);
      CommitClaim(cfg, s.data, pc.r, pc.node, pc.d);
    } else if Deleting(pc') {
      if pc.DeTables? {
        if pc'.live {
          OnlyICommit(cfg, s, t, pc.name);
        }
        DropClaim(cfg, s.data, pc.name, pc.d, pc'.live);
      } else {
        assert PcReplica(s.data, pc);
      }
    }
  }

  lemma OthersReplica(cfg: Config, s: State, t: Tid, e: Effect, pc': Pc, u: Tid)
    requires LockInv(cfg, s) && ReplicaInv(s) && t in s.threads && u in s.threads && u != t
    requires Possible(s.data, e) && EffectSource(s.threads[t], e, pc')
    ensures PcReplica(Apply(cfg, s.data, e), s.threads[u])
  {
    if Heavy(e) {
      HeavyHoldsMaster(s.threads[t], e, pc');
      OneMaster(cfg, s, t);
      NoClaim(Apply(cfg, s.data, e), s.threads[u]);
    } else {
      LightEffects(cfg, s.data, e);
    }
  }

  // ----- live volumes

  /** What the master holds stays backed under a call that does not take the volume off its node. */
  lemma LiveFrame(cfg: Config, d: Data, e: Effect, v: string)
    requires Possible(d, e) && RefsOk(d.master) && NodesOk(d) && HoldsLive(d, v)
    requires e.Allocated? ==> e.r.name != v || !LiveOn(d.master, v, e.n)
    requires e.DeAllocated? || e.Committed? || e.Dropped? ==> !Names(e, v)
    ensures HoldsLive(Apply(cfg, d, e), v)
  {
    var dev := d.master.byVolume[v];
    HoldsFrame(cfg, d, e, v, d.master.store[dev].id);
    StoreGrows(cfg, d, e, dev);
  }

  predicate Names(e: Effect, v: string) {
    match e
    case Committed(r, _, _) => r.name == v
    case Dropped(name, _) => name == v
    case DeAllocated(name, _) => name == v
    case _ => false
  }

  lemma CommitBacks(cfg: Config, d: Data, r: Request, n: string, dev: Ref)
    requires PcReplica(d, CrCommit(r, n, dev))
    ensures HoldsLive(Apply(cfg, d, Committed(r, n, dev)), r.name)
  {
  }

  lemma ByVolumeSource(cfg: Config, d: Data, e: Effect, v: string)
    requires Possible(d, e) && v in Apply(cfg, d, e).master.byVolume
    ensures (v in d.master.byVolume && !(e.Dropped? && e.name == v)) || (e.Committed? && e.r.name == v)
  {
  }

  lemma HeavyBacked(cfg: Config, s: State, t: Tid, e: Effect, pc': Pc, v: string)
    requires LockInv(cfg, s) && SafetyInv(cfg, s) && ReplicaInv(s) && t in s.threads && Possible(s.data, e)
    requires EffectSource(s.threads[t], e, pc') && Heavy(e) && ReplicaRule(s.data, Run(t, e, pc'))
    requires v in Apply(cfg, s.data, e).master.byVolume
    ensures HoldsLive(Apply(cfg, s.data, e), v) || (pc'.CrCommit? && pc'.r.name == v)
  {
    var pc := s.threads[t];
    HeavyHoldsMaster(pc, e, pc');
    ByVolumeSource(cfg, s.data, e, v);
    assert PcReplica(s.data, pc);
    if e.Committed? && e.r.name == v {
      CommitBacks(cfg, s.data, e.r, e.n, e.d);
    } else {
      OnlyICommit(cfg, s, t, v);
      if !(e.Allocated? && e.r.name == v && pc'.CrCommit?) {
        LiveFrame(cfg, s.data, e, v);
      }
    }
  }

  lemma NowCommitting(threads: map<Tid, Pc>, t: Tid, pc: Pc)
    requires pc.CrCommit?
    ensures Committing(threads[t := pc], pc.r.name)
  {
    assert threads[t := pc][t] == pc;
  }

  lemma StillCommitting(threads: map<Tid, Pc>, t: Tid, pc: Pc, v: string)
    requires Committing(threads, v) && (t in threads ==> !threads[t].CrCommit?)
    ensures Committing(threads[t := pc], v)
  {
    var u :| u in threads && threads[u].CrCommit? && threads[u].r.name == v;
    assert threads[t := pc][u] == threads[u];
  }

  lemma RunBacked(cfg: Config, s: State, t: Tid, e: Effect, pc': Pc, v: string)
    requires LockInv(cfg, s) && SafetyInv(cfg, s) && ReplicaInv(s) && t in s.threads && Possible(s.data, e)
    requires EffectSource(s.threads[t], e, pc') && ReplicaRule(s.data, Run(t, e, pc'))
    requires v in Apply(cfg, s.data, e).master.byVolume
    ensures HoldsLive(Apply(cfg, s.data, e), v) || Committing(s.threads[t := pc'], v)
  {
    if Heavy(e) {
      HeavyBacked(cfg, s, t, e, pc', v);
      if pc'.CrCommit? && pc'.r.name == v {
        NowCommitting(s.threads, t, pc');
      }
    } else {
      LightEffects(cfg, s.data, e);
      if Committing(s.threads, v) {
        StillCommitting(s.threads, t, pc', v);
      }
    }
  }

  // ----- runs

  lemma ReplicaSpawn(s: State, t: Tid, call: Call)
    requires ReplicaInv(s) && t !in s.threads
    ensures ReplicaInv(s.(threads := s.threads[t := Entry(call)]))
  {
    NoClaim(s.data, Entry(call));
    var threads' := s.threads[t := Entry(call)];
    forall v | v in s.data.master.byVolume ensures HoldsLive(s.data, v) || Committing(threads', v) {
      if Committing(s.threads, v) {
        StillCommitting(s.threads, t, Entry(call), v);
      }
    }
  }

  lemma ReplicaStart(s: State, n: string, g: Manager<Ref>)
    requires ReplicaInv(s) && n !in s.data.nodes && Booted(g, n)
    ensures ReplicaInv(s.(data := s.data.(nodes := s.data.nodes[n := g])))
  {
    var d, d' := s.data, s.data.(nodes := s.data.nodes[n := g]);
    BootedOk(g, n);
    assert NodesOk(d');
    assert forall v, id | Holds(d, v, id) :: Holds(d', v, id);
    assert forall v | HoldsLive(d, v) :: HoldsLive(d', v);
    forall t | t in s.threads ensures PcReplica(d', s.threads[t]) {
      assert PcReplica(d, s.threads[t]);
    }
  }

  lemma ReplicaRunStep(cfg: Config, s: State, t: Tid, e: Effect, pc': Pc)
    requires LockInv(cfg, s) && SafetyInv(cfg, s) && OwnershipInv(cfg, s) && ReplicaInv(s)
    requires May(cfg, s, t, e, pc') && ReplicaRule(s.data, Run(t, e, pc'))
    ensures ReplicaInv(Do(cfg, s, t, e, pc'))
  {
    var s' := Do(cfg, s, t, e, pc');
    Sources(cfg, s.threads[t], e, pc');
    EffectKeepsNodes(cfg, s.data, e);
    OwnReplica(cfg, s, t, e, pc');
    forall u | u in s'.threads ensures PcReplica(s'.data, s'.threads[u]) {
      if u != t {
        OthersReplica(cfg, s, t, e, pc', u);
      }
    }
    forall v | v in s'.data.master.byVolume ensures HoldsLive(s'.data, v) || Committing(s'.threads, v) {
      RunBacked(cfg, s, t, e, pc', v);
    }
  }

  lemma ReplicaNext(cfg: Config, s: State, step: Step, s': State)
    requires LockInv(cfg, s) && SafetyInv(cfg, s) && OwnershipInv(cfg, s) && ReplicaInv(s)
    requires Next(cfg, s, step, s') && ReplicaRule(s.data, step)
    ensures ReplicaInv(s')
  {
    match step
    case Spawn(t, call) => ReplicaSpawn(s, t, call);
    case Start(n, g) => ReplicaStart(s, n, g);
    case Run(t, e, pc') => ReplicaRunStep(cfg, s, t, e, pc');
  }

  ghost predicate ReplicaRun(cfg: Config, states: seq<State>, steps: seq<Step>) {
    IsRun(cfg, states, steps) && forall k | 0 <= k < |steps| :: ReplicaRule(states[k].data, steps[k])
  }

  lemma ReplicaStep(cfg: Config, states: seq<State>, steps: seq<Step>, k: nat)
    requires ReplicaRun(cfg, states, steps) && k < |steps| && ReplicaInv(states[k])
    ensures ReplicaInv(states[k + 1])
  {
    LockInvAlways(cfg, states, steps, k);
    SafetyAlways(cfg, states, steps, k);
    OwnershipAlways(cfg, states, steps, k);
    ReplicaNext(cfg, states[k], steps[k], states[k + 1]);
  }

  lemma {:induction false} ReplicasAlways(cfg: Config, states: seq<State>, steps: seq<Step>, i: nat)
    requires ReplicaRun(cfg, states, steps) && i < |states|
    ensures ReplicaInv(states[i])
  {
    if i > 0 {
      ReplicasAlways(cfg, states, steps, i - 1);
      ReplicaStep(cfg, states, steps, i - 1);
    }
  }

  /** A node has the volume: indexed by name, and among the volumes of the device with this id, which
      is the very device the id stands for on that node. */
  ghost predicate NodeKeeps(d: Data, v: string, id: string) {
    && NodeOf(id) in d.nodes
    && var g := d.nodes[NodeOf(id)];
       && id in g.byID && g.byID[id] in g.store && g.store[g.byID[id]].id == id
       && v in g.byVolume && g.byVolume[v] == g.byID[id]
       && v in g.store[g.byID[id]].volumes
  }

  lemma HoldsMeans(d: Data, v: string, id: string)
    requires NodesOk(d) && Holds(d, v, id)
    ensures NodeKeeps(d, v, id)
  {
    var g := d.nodes[NodeOf(id)];
    assert NodeOk(g, NodeOf(id));
    assert Bound(g, v);
  }

  /** Replica agreement: outside the moment between a node's acceptance and the master's record of it,
      every volume the master holds is on the node its device belongs to, bound to the device with the
      same id. */
  lemma ReplicasAgree(cfg: Config, states: seq<State>, steps: seq<Step>, i: nat, v: string)
    requires ReplicaRun(cfg, states, steps) && i < |states| && v in states[i].data.master.byVolume
    requires !Committing(states[i].threads, v)
    ensures var m := states[i].data.master;
            m.byVolume[v] in m.store && NodeKeeps(states[i].data, v, m.store[m.byVolume[v]].id)
  {
    ReplicasAlways(cfg, states, steps, i);
    var m := states[i].data.master;
    HoldsMeans(states[i].data, v, m.store[m.byVolume[v]].id);
  }

  /** A node never refuses a deletion that the master forwards for a volume it held, on that device,
      when it took the lock. */
  lemma DeletesAccepted(cfg: Config, states: seq<State>, steps: seq<Step>, i: nat, t: Tid)
    requires ReplicaRun(cfg, states, steps) && i < |states|
    requires t in states[i].threads && states[i].threads[t].DeCall? && states[i].threads[t].live
    ensures var d, pc := states[i].data, states[i].threads[t];
            pc.node in d.nodes && ManagerRefsOk(d.nodes[pc.node]) && DeAllocate(d.nodes[pc.node], pc.name).Some?
  {
    ReplicasAlways(cfg, states, steps, i);
    OwnershipAlways(cfg, states, steps, i);
    var d, pc := states[i].data, states[i].threads[t];
    assert PcReplica(d, pc) && Targets(d.master, pc);
    assert NodeOk(d.nodes[pc.node], pc.node);
  }

  /** A live volume stages to its own device: the "ID" in its context, looked up on the node that
      holds it, gives the device the node bound the volume to. */
  lemma StagesToItsDevice(cfg: Config, states: seq<State>, steps: seq<Step>, i: nat, v: string)
    requires ReplicaRun(cfg, states, steps) && i < |states| && v in states[i].data.master.byVolume
    requires !Committing(states[i].threads, v)
    ensures var d := states[i].data;
            && d.master.byVolume[v] in d.master.store
            && var dev := d.master.store[d.master.byVolume[v]];
            && v in dev.volumes && dev.volumes[v].Vol? && "ID" in dev.volumes[v].context
            && var id := dev.volumes[v].context["ID"];
            && NodeOf(id) in d.nodes && id in d.nodes[NodeOf(id)].byID
            && v in d.nodes[NodeOf(id)].byVolume && d.nodes[NodeOf(id)].byVolume[v] == d.nodes[NodeOf(id)].byID[id]
  {
    ReplicasAgree(cfg, states, steps, i, v);
    AlwaysIndexed(cfg, states, steps, i, v);
  }

  /** The rule on lost replies cannot be weakened: in a state where the master and the nodes agree, a
      node's acceptance whose reply is lost leaves them agreeing exactly when the master holds no
      volume of that name on that node. */
  lemma LostReplyExactly(cfg: Config, d: Data, r: Request, n: string, dev: Ref)
    requires NodesOk(d) && RefsOk(d.master) && Possible(d, Allocated(r, n, dev)) && NodeOf(d.master.store[dev].id) == n
    requires forall v | v in d.master.byVolume :: HoldsLive(d, v)
    ensures var d' := Apply(cfg, d, Allocated(r, n, dev));
            (forall v | v in d'.master.byVolume :: HoldsLive(d', v)) <==> !LiveOn(d.master, r.name, n)
  {
    var d' := Apply(cfg, d, Allocated(r, n, dev));
    var id := d.master.store[dev].id;
    AllocateKeepsNode(d.nodes[n], n, id, r.name);
    if LiveOn(d.master, r.name, n) {
      var oldId := d.master.store[d.master.byVolume[r.name]].id;
      assert HoldsLive(d, r.name);
      HoldsMeans(d, r.name, oldId);
      assert oldId != id;
      assert !HoldsLive(d', r.name);
    } else {
      forall v | v in d'.master.byVolume ensures HoldsLive(d', v) {
        LiveFrame(cfg, d, Allocated(r, n, dev), v);
      }
    }
  }
}
