/** The converse of Safety's index agreement: when every volume on a device of the master is indexed as
    being there, and so sits on one device only. */
module MasterIndex {
  import opened Devices
  import opened Tables
  import opened System
  import opened Locks
  import opened Safety
  import opened Replicas
  import opened Reliability

  /** Every volume on a device of the master is indexed as being there. */
  ghost predicate MasterExact(m: Master<Ref>) {
    forall x, v | x in m.store && v in m.store[x].volumes :: v in m.byVolume && m.byVolume[v] == x
  }

  /** The master has the name, if at all, on this device. */
  predicate AtMost(m: Master<Ref>, name: string, dev: Ref) {
    name in m.byVolume ==> m.byVolume[name] == dev
  }

  /** Recording a volume keeps that if and only if the master did not hold the name on another device;
      otherwise the name stays on both. */
  lemma RecordExactly(m: Master<Ref>, dev: Ref, name: string, v: Volume)
    requires Indexed(m) && MasterExact(m) && dev in m.store
    ensures MasterExact(SetVolume(m, dev, name, v)) <==> AtMost(m, name, dev)
  {
    var m' := SetVolume(m, dev, name, v);
    if !AtMost(m, name, dev) {
      var x := m.byVolume[name];
      assert name in m'.store[x].volumes && m'.byVolume[name] == dev;
    }
  }

  /** So does dropping one: a stale deletion of a name that now sits on another device leaves it there
      without an index entry. */
  lemma DropExactly(m: Master<Ref>, dev: Ref, name: string)
    requires Indexed(m) && MasterExact(m) && dev in m.store
    ensures MasterExact(DropVolume(m, dev, name)) <==> AtMost(m, name, dev)
  {
    var m' := DropVolume(m, dev, name);
    if !AtMost(m, name, dev) {
      var x := m.byVolume[name];
      assert name in m'.store[x].volumes && name !in m'.byVolume;
    }
  }

  lemma AddExact(m: Master<Ref>, n: string, reports: seq<Report>, refs: seq<Ref>)
    requires RefsOk(m) && MasterExact(m) && |reports| == |refs| && FreshRefs(m, refs)
    ensures MasterExact(AddNode(m, n, reports, refs))
  {
    AddNodeStore(m, n, reports, refs);
  }

  /** The step records or drops a name only where the master has it, or has it nowhere. */
  ghost predicate IndexStep(s: State, step: Step) {
    step.Run? ==>
      && (step.e.Committed? ==> AtMost(s.data.master, step.e.r.name, step.e.d))
      && (step.e.Dropped? ==> AtMost(s.data.master, step.e.name, step.e.d))
  }

  lemma EffectExactly(cfg: Config, d: Data, e: Effect)
    requires Possible(d, e) && RefsOk(d.master) && Indexed(d.master) && MasterExact(d.master)
    ensures MasterExact(Apply(cfg, d, e).master) <==>
            && (e.Committed? ==> AtMost(d.master, e.r.name, e.d))
            && (e.Dropped? ==> AtMost(d.master, e.name, e.d))
  {
    match e
    case Added(node, reports, refs) => AddExact(d.master, node.nodeID, reports, refs);
    case Committed(r, n, dev) => RecordExactly(d.master, dev, r.name, VolumeOf(cfg, d.master, r, n, dev));
    case Dropped(name, dev) => DropExactly(d.master, dev, name);
    case _ => NoVolumeWritten(cfg, d, e);
  }

  lemma NoVolumeWritten(cfg: Config, d: Data, e: Effect)
    requires Possible(d, e) && !e.Added? && !e.Committed? && !e.Dropped?
    ensures Apply(cfg, d, e).master.byVolume == d.master.byVolume && Apply(cfg, d, e).master.store == d.master.store
  {
  }

  lemma IndexNext(cfg: Config, s: State, step: Step, s': State)
    requires Next(cfg, s, step, s') && RefsOk(s.data.master) && Indexed(s.data.master) && MasterExact(s.data.master)
    ensures MasterExact(s'.data.master) <==> IndexStep(s, step)
  {
    if step.Run? {
      EffectExactly(cfg, s.data, step.e);
    }
  }

  lemma {:induction false} ExactUpTo(cfg: Config, states: seq<State>, steps: seq<Step>, i: nat)
    requires IsRun(cfg, states, steps) && i < |states|
    requires forall k | 0 <= k < i :: IndexStep(states[k], steps[k])
    ensures MasterExact(states[i].data.master)
  {
    if i > 0 {
      ExactUpTo(cfg, states, steps, i - 1);
      SafetyAlways(cfg, states, steps, i - 1);
      IndexNext(cfg, states[i - 1], steps[i - 1], states[i]);
    }
  }

  /** In a run every volume of the master sits, in every state, on exactly the device it is indexed under
      if and only if no step records or drops a name that the master has on another device. */
  lemma ExactRuns(cfg: Config, states: seq<State>, steps: seq<Step>)
    requires IsRun(cfg, states, steps)
    ensures (forall i | 0 <= i < |states| :: MasterExact(states[i].data.master)) <==>
            (forall k | 0 <= k < |steps| :: IndexStep(states[k], steps[k]))
  {
    if forall i | 0 <= i < |states| :: MasterExact(states[i].data.master) {
      forall k | 0 <= k < |steps| ensures IndexStep(states[k], steps[k]) {
        SafetyAlways(cfg, states, steps, k);
        IndexNext(cfg, states[k], steps[k], states[k + 1]);
      }
    }
    if forall k | 0 <= k < |steps| :: IndexStep(states[k], steps[k]) {
      forall i | 0 <= i < |states| ensures MasterExact(states[i].data.master) {
        ExactUpTo(cfg, states, steps, i);
      }
    }
  }

  // ----- without re-creation of live names

  /** A name about to be recorded is not live. */
  ghost predicate CommitsNew(s: State) {
    forall t | t in s.threads && s.threads[t].CrCommit? :: s.threads[t].r.name !in s.data.master.byVolume
  }

  lemma CommitsNewRun(cfg: Config, s: State, t: Tid, e: Effect, pc': Pc)
    requires LockInv(cfg, s) && CommitsNew(s) && May(cfg, s, t, e, pc') && Keeps(NoLiveName, s, Run(t, e, pc'))
    ensures CommitsNew(Do(cfg, s, t, e, pc'))
  {
    var s' := Do(cfg, s, t, e, pc');
    Sources(cfg, s.threads[t], e, pc');
    forall u | u in s'.threads && s'.threads[u].CrCommit? ensures s'.threads[u].r.name !in s'.data.master.byVolume {
      if u != t {
        OthersCommit(cfg, s, t, e, pc', u);
      } else {
        NoVolumeWritten(cfg, s.data, e);
      }
    }
  }

  lemma OthersCommit(cfg: Config, s: State, t: Tid, e: Effect, pc': Pc, u: Tid)
    requires LockInv(cfg, s) && CommitsNew(s) && t in s.threads && u in s.threads && u != t && s.threads[u].CrCommit?
    requires Possible(s.data, e) && EffectSource(s.threads[t], e, pc')
    ensures s.threads[u].r.name !in Apply(cfg, s.data, e).master.byVolume
  {
    OneMaster(cfg, s, u);
    if Heavy(e) {
      HeavyHoldsMaster(s.threads[t], e, pc');
    } else {
      LightEffects(cfg, s.data, e);
    }
  }

  lemma CommitsNewNext(cfg: Config, s: State, step: Step, s': State)
    requires LockInv(cfg, s) && CommitsNew(s) && Next(cfg, s, step, s') && Keeps(NoLiveName, s, step)
    ensures CommitsNew(s')
  {
    match step
    case Spawn(t, call) => assert !Entry(call).CrCommit?;
    case Start(_, _) =>
    case Run(t, e, pc') => CommitsNewRun(cfg, s, t, e, pc');
  }

  lemma {:induction false} CommitsNewAlways(cfg: Config, states: seq<State>, steps: seq<Step>, i: nat)
    requires IsRun(cfg, states, steps) && i < |states|
    requires forall k | 0 <= k < |steps| :: Keeps(NoLiveName, states[k], steps[k])
    ensures CommitsNew(states[i])
  {
    if i > 0 {
      LockInvAlways(cfg, states, steps, i - 1);
      CommitsNewAlways(cfg, states, steps, i - 1);
      CommitsNewNext(cfg, states[i - 1], steps[i - 1], states[i]);
    }
  }

  /** Then the records are in order, and only stale deletions can upset the index. */
  lemma RecordsInOrder(cfg: Config, s: State, step: Step, s': State)
    requires CommitsNew(s) && Next(cfg, s, step, s')
    ensures step.Run? && step.e.Committed? ==> AtMost(s.data.master, step.e.r.name, step.e.d)
  {
    if step.Run? && step.e.Committed? {
      Sources(cfg, s.threads[step.t], step.e, step.to);
    }
  }
}
