/** What holds of the master's tables in every state of every run: any number of concurrent calls,
    nodes that report anything, restart, register again and lose replies, names created twice, and
    deletions that act on a device read before the lock. */
module Safety {
  import opened Wrappers
  import opened Machine
  import opened Devices
  import opened Tables
  import opened System
  import opened Locks

  /** A device holds only real volumes, each naming it as its device, and not more than it has. */
  ghost predicate DeviceOk(cfg: Config, d: Device) {
    && (forall v | v in d.volumes :: d.volumes[v].Vol? && "ID" in d.volumes[v].context
          && d.volumes[v].context["ID"] == d.id)
    && WithinLimits(cfg.parse, d)
  }

  ghost predicate StoreOk(cfg: Config, store: map<Ref, Device>) {
    forall d | d in store :: DeviceOk(cfg, store[d])
  }

  /** Every volume the master knows by name is among the volumes of its device. */
  ghost predicate Indexed(m: Master<Ref>) {
    forall v | v in m.byVolume :: m.byVolume[v] in m.store && v in m.store[m.byVolume[v]].volumes
  }

  ghost predicate MasterInv(cfg: Config, m: Master<Ref>) {
    RefsOk(m) && StoreOk(cfg, m.store) && Indexed(m)
  }

  /** The device a thread works on, if any. */
  function DeviceOf(pc: Pc): Option<Ref> {
    match pc
    case CrLook(_, _, d) => Some(d)
    case CrRead(_, _, d) => Some(d)
    case CrCall(_, _, d) => Some(d)
    case CrCommit(_, _, d) => Some(d)
    case DeLock(_, d) => Some(d)
    case DeTables(_, d) => Some(d)
    case DeRoute(_, d, _) => Some(d)
    case DeLook(_, d, _, _) => Some(d)
    case DeReg(_, d, _, _) => Some(d)
    case DeCall(_, d, _, _) => Some(d)
    case _ => None
  }

  /** The request a thread has found a device for and not yet recorded. */
  function Approved(pc: Pc): Option<Request> {
    match pc
    case CrLook(r, _, _) => Some(r)
    case CrRead(r, _, _) => Some(r)
    case CrCall(r, _, _) => Some(r)
    case CrCommit(r, _, _) => Some(r)
    case _ => None
  }

  ghost predicate PcInv(cfg: Config, m: Master<Ref>, pc: Pc) {
    && (DeviceOf(pc).Some? ==> DeviceOf(pc).value in m.store)
    && (Approved(pc).Some? ==> Match(cfg.parse, m.store[DeviceOf(pc).value], Approved(pc).value.params) == OK)
  }

  ghost predicate SafetyInv(cfg: Config, s: State) {
    && MasterInv(cfg, s.data.master)
    && forall t | t in s.threads :: PcInv(cfg, s.data.master, s.threads[t])
  }

  lemma AddKeepsInv(cfg: Config, m: Master<Ref>, n: string, reports: seq<Report>, refs: seq<Ref>)
    requires MasterInv(cfg, m) && |reports| == |refs| && FreshRefs(m, refs)
    ensures MasterInv(cfg, AddNode(m, n, reports, refs))
  {
    var m' := AddNode(m, n, reports, refs);
    AddNodeStore(m, n, reports, refs);
    AddNodeRefsOk(m, n, reports, refs);
    forall d | d in m'.store ensures DeviceOk(cfg, m'.store[d]) {
      if d !in m.store {
        var k :| 0 <= k < |refs| && refs[k] == d;
        EmptyWithinLimits(cfg.parse, m'.store[d]);
      }
    }
  }

  lemma CommitKeepsInv(cfg: Config, m: Master<Ref>, r: Request, n: string, d: Ref)
    requires MasterInv(cfg, m) && d in m.store && Match(cfg.parse, m.store[d], r.params) == OK
    ensures MasterInv(cfg, SetVolume(m, d, r.name, VolumeOf(cfg, m, r, n, d)))
  {
    var v := VolumeOf(cfg, m, r, n, d);
    ApprovalKeepsLimits(cfg.parse, m.store[d], r.params, r.name, v);
    assert DeviceOk(cfg, m.store[d]);
    assert DeviceOk(cfg, SetVolume(m, d, r.name, v).store[d]);
  }

  lemma DropKeepsInv(cfg: Config, m: Master<Ref>, d: Ref, name: string)
    requires MasterInv(cfg, m) && d in m.store
    ensures MasterInv(cfg, DropVolume(m, d, name))
  {
    assert DeviceOk(cfg, m.store[d]);
    ReleaseKeepsLimits(cfg.parse, m.store[d], name);
    assert DeviceOk(cfg, DropVolume(m, d, name).store[d]);
  }

  /** What a step's effect needs of its thread. */
  ghost predicate EffectOk(cfg: Config, m: Master<Ref>, e: Effect) {
    e.Committed? ==> e.d in m.store && Match(cfg.parse, m.store[e.d], e.r.params) == OK
  }

  lemma RegistryTouchesNoVolume(cfg: Config, pc: Pc, e: Effect, pc': Pc)
    requires RegistryMoves(cfg, pc, e, pc')
    ensures !e.Committed? && !e.Dropped? && !e.Allocated? && !e.DeAllocated? && DeviceOf(pc').None?
  {
  }

  lemma CommitSource(cfg: Config, pc: Pc, e: Effect, pc': Pc)
    requires VolumeMoves(cfg, pc, e, pc') && e.Committed?
    ensures pc == CrCommit(e.r, e.n, e.d)
  {
  }

  lemma MovesEffectOk(cfg: Config, m: Master<Ref>, pc: Pc, e: Effect, pc': Pc)
    requires Moves(cfg, pc, e, pc') && PcInv(cfg, m, pc)
    ensures EffectOk(cfg, m, e)
  {
    if e.Committed? {
      WritersMove(cfg, pc, e, pc');
      CommitSource(cfg, pc, e, pc');
    }
  }

  lemma WritersMove(cfg: Config, pc: Pc, e: Effect, pc': Pc)
    requires Moves(cfg, pc, e, pc') && (e.Committed? || e.Dropped?)
    ensures VolumeMoves(cfg, pc, e, pc')
  {
    if Wants(cfg, pc).None? && KeyOf(pc).Some? {
      RegistryTouchesNoVolume(cfg, pc, e, pc');
    }
  }

  lemma EffectKeepsMaster(cfg: Config, d: Data, e: Effect)
    requires Possible(d, e) && MasterInv(cfg, d.master) && EffectOk(cfg, d.master, e)
    ensures MasterInv(cfg, Apply(cfg, d, e).master)
  {
    match e
    case Added(node, reports, refs) => AddKeepsInv(cfg, d.master, node.nodeID, reports, refs);
    case Committed(r, n, dev) => CommitKeepsInv(cfg, d.master, r, n, dev);
    case Dropped(name, dev) => DropKeepsInv(cfg, d.master, dev, name);
    case _ =>
  }

  /** The devices already there stay, and keep their id, size and parameters; their volumes only
      change in the two steps of the master that write them. */
  lemma StoreGrows(cfg: Config, d: Data, e: Effect, dev: Ref)
    requires Possible(d, e) && RefsOk(d.master) && dev in d.master.store
    ensures var store := Apply(cfg, d, e).master.store;
            && dev in store
            && store[dev].(volumes := map[]) == d.master.store[dev].(volumes := map[])
            && (store[dev] == d.master.store[dev] || e.Committed? || e.Dropped?)
  {
    if e.Added? {
      AddNodeStore(d.master, e.node.nodeID, e.reports, e.refs);
    }
  }

  lemma CapacityTouchesNothing(cfg: Config, pc: Pc, e: Effect, pc': Pc)
    requires CapacityMoves(pc, e, pc')
    ensures e == Quiet && DeviceOf(pc').None?
  {
  }

  lemma VolumeWriters(cfg: Config, pc: Pc, e: Effect, pc': Pc)
    requires VolumeMoves(cfg, pc, e, pc') && (e.Committed? || e.Dropped?)
    ensures (pc.CrCommit? || pc.DeTables?) && Approved(pc').None?
  {
  }

  /** Those two steps are made under the master mutex. */
  lemma WritersHoldMaster(cfg: Config, pc: Pc, e: Effect, pc': Pc)
    requires Moves(cfg, pc, e, pc') && (e.Committed? || e.Dropped?)
    ensures MasterMutex in Held(cfg, pc) && Approved(pc').None?
  {
    WritersMove(cfg, pc, e, pc');
    VolumeWriters(cfg, pc, e, pc');
  }

  /** Where a thread's device and request come from. */
  ghost predicate Inherits(cfg: Config, d: Data, pc: Pc, pc': Pc) {
    if DeviceOf(pc) == DeviceOf(pc') then Approved(pc').Some? ==> Approved(pc') == Approved(pc)
    else if pc.CrFind? then
      && DeviceOf(pc').value in d.master.store && Approved(pc').Some?
      && Match(cfg.parse, d.master.store[DeviceOf(pc').value], Approved(pc').value.params) == OK
    else pc.DeRead? && Approved(pc').None? && DeviceOf(pc').value in d.master.byVolume.Values
  }

  lemma VolumeInherits(cfg: Config, pc: Pc, d: Data, e: Effect, pc': Pc)
    requires VolumeMoves(cfg, pc, e, pc') && Decides(cfg, pc, d, pc') && DeviceOf(pc').Some?
    ensures Inherits(cfg, d, pc, pc')
  {
    match pc
    case CrFind(_) =>
    case DeRead(_) =>
    case _ =>
  }

  lemma TakenInherits(cfg: Config, pc: Pc, d: Data)
    requires Wants(cfg, pc).Some? && DeviceOf(Taken(cfg, pc)).Some?
    ensures Inherits(cfg, d, pc, Taken(cfg, pc))
  {
  }

  lemma DeviceComesFrom(cfg: Config, pc: Pc, d: Data, e: Effect, pc': Pc)
    requires Moves(cfg, pc, e, pc') && Decides(cfg, pc, d, pc') && DeviceOf(pc').Some?
    ensures Inherits(cfg, d, pc, pc')
  {
    if Wants(cfg, pc).Some? {
      TakenInherits(cfg, pc, d);
    } else if KeyOf(pc).Some? {
      RegistryTouchesNoVolume(cfg, pc, e, pc');
    } else if HoldsMaster(pc) || pc.DeRead? {
      VolumeInherits(cfg, pc, d, e, pc');
    } else {
      CapacityTouchesNothing(cfg, pc, e, pc');
    }
  }

  lemma StepKeepsPc(cfg: Config, pc: Pc, d: Data, e: Effect, pc': Pc)
    requires Moves(cfg, pc, e, pc') && Decides(cfg, pc, d, pc') && Possible(d, e)
    requires MasterInv(cfg, d.master) && PcInv(cfg, d.master, pc)
    ensures PcInv(cfg, Apply(cfg, d, e).master, pc')
  {
    if DeviceOf(pc').Some? {
      DeviceComesFrom(cfg, pc, d, e, pc');
      StoreGrows(cfg, d, e, DeviceOf(pc').value);
      if e.Committed? || e.Dropped? {
        WritersHoldMaster(cfg, pc, e, pc');
      }
    } else {
      NoDeviceNoRequest(pc');
    }
  }

  lemma NoDeviceNoRequest(pc: Pc)
    ensures Approved(pc).Some? ==> DeviceOf(pc).Some?
  {
  }

  lemma ApprovedHoldsMaster(cfg: Config, pc: Pc)
    requires Approved(pc).Some?
    ensures MasterMutex in Held(cfg, pc)
  {
  }

  lemma StepKeepsOthers(cfg: Config, pc: Pc, d: Data, e: Effect, pc': Pc, other: Pc)
    requires Moves(cfg, pc, e, pc') && Possible(d, e) && MasterInv(cfg, d.master)
    requires PcInv(cfg, d.master, other) && Held(cfg, pc) !! Held(cfg, other)
    ensures PcInv(cfg, Apply(cfg, d, e).master, other)
  {
    if DeviceOf(other).Some? {
      StoreGrows(cfg, d, e, DeviceOf(other).value);
      if Approved(other).Some? {
        ApprovedHoldsMaster(cfg, other);
        if e.Committed? || e.Dropped? {
          WritersHoldMaster(cfg, pc, e, pc');
        }
      }
    } else {
      NoDeviceNoRequest(other);
    }
  }

  lemma SafetyNext(cfg: Config, s: State, step: Step, s': State)
    requires LockInv(cfg, s) && SafetyInv(cfg, s) && Next(cfg, s, step, s')
    ensures SafetyInv(cfg, s')
  {
    match step
    case Spawn(t, call) =>
      assert DeviceOf(Entry(call)) == None;
    case Start(_, _) =>
    case Run(t, e, pc') =>
      var pc := s.threads[t];
      MovesEffectOk(cfg, s.data.master, pc, e, pc');
      EffectKeepsMaster(cfg, s.data, e);
      StepKeepsPc(cfg, pc, s.data, e, pc');
      forall u | u in s'.threads ensures PcInv(cfg, s'.data.master, s'.threads[u]) {
        if u != t {
          Exclusive(cfg, s, t, u);
          StepKeepsOthers(cfg, pc, s.data, e, pc', s.threads[u]);
        }
      }
  }

  lemma {:induction false} SafetyAlways(cfg: Config, states: seq<State>, steps: seq<Step>, i: nat)
    requires IsRun(cfg, states, steps) && i < |states|
    ensures SafetyInv(cfg, states[i])
  {
    if i > 0 {
      LockInvAlways(cfg, states, steps, i - 1);
      SafetyAlways(cfg, states, steps, i - 1);
      SafetyNext(cfg, states[i - 1], steps[i - 1], states[i]);
    }
  }

  // ----- in any run

  /** No GPU the master can reach, by whatever table or by a call in flight, is given out beyond its
      memory or its millicores. A negative or unreadable amount counts as none. */
  lemma NeverOvercommitted(cfg: Config, states: seq<State>, steps: seq<Step>, i: nat, d: Ref)
    requires IsRun(cfg, states, steps) && i < |states| && d in states[i].data.master.store
    ensures var dev := states[i].data.master.store[d];
            "deviceType" in dev.params && dev.params["deviceType"] == "gpu" ==>
              forall p | p in {"memory", "millicores"} ::
                Used(cfg.parse, dev.volumes, p) <=
                if p in dev.params && cfg.parse(dev.params[p]).Some? && cfg.parse(dev.params[p]).value > 0
                then cfg.parse(dev.params[p]).value else 0
  {
    SafetyAlways(cfg, states, steps, i);
    assert DeviceOk(cfg, states[i].data.master.store[d]);
  }

  ghost predicate ExactArithmetic(cfg: Config, dev: Device, p: string, visited: set<string>) {
    && (forall v | v in dev.volumes :: dev.volumes[v].Vol?)
    && Used(cfg.parse, Counted(dev.volumes, visited), p) <= MAX_INT64
    && (p in dev.params && cfg.parse(dev.params[p]).Some? ==>
          var have := cfg.parse(dev.params[p]).value;
          Wrap64(have - Wrap64(Used(cfg.parse, dev.volumes, p))) == have - Used(cfg.parse, dev.volumes, p))
  }

  /** totalUsedParam never meets a nil volume, and neither its partial sums, in any order, nor the
      subtraction that follows leave the int64 range: the machine's verdict is the mathematical one. */
  lemma NeverOverflows(cfg: Config, states: seq<State>, steps: seq<Step>, i: nat, d: Ref, p: string,
                       visited: set<string>)
    requires IsRun(cfg, states, steps) && i < |states| && d in states[i].data.master.store
    requires IsGpu(states[i].data.master.store[d]) && (p == MEMORY || p == MILLICORES)
    ensures ExactArithmetic(cfg, states[i].data.master.store[d], p, visited)
  {
    SafetyAlways(cfg, states, steps, i);
    var dev := states[i].data.master.store[d];
    assert DeviceOk(cfg, dev);
    NoSumOverflow(cfg.parse, dev, p, visited);
    if p in dev.params && cfg.parse(dev.params[p]).Some? {
      NoDifferenceOverflow(cfg.parse, dev, p);
    }
  }

  /** A volume the master knows by name is on the device it is indexed under, with that device's ID in
      its context, whatever unlocked reads happened on the way. */
  lemma AlwaysIndexed(cfg: Config, states: seq<State>, steps: seq<Step>, i: nat, v: string)
    requires IsRun(cfg, states, steps) && i < |states| && v in states[i].data.master.byVolume
    ensures var m := states[i].data.master;
            && m.byVolume[v] in m.store && v in m.store[m.byVolume[v]].volumes
            && var dev := m.store[m.byVolume[v]];
               dev.volumes[v].Vol? && "ID" in dev.volumes[v].context && dev.volumes[v].context["ID"] == dev.id
  {
    SafetyAlways(cfg, states, steps, i);
    var m := states[i].data.master;
    assert DeviceOk(cfg, m.store[m.byVolume[v]]);
  }
}
