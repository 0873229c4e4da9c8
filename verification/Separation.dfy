/** What a caller can do to keep deletions fresh: not have a create and a delete of one name in flight
    together. Any number of creates of a name, or of deletes of it, may still race. */
module Separation {
  import opened Wrappers
  import opened Decimal
  import opened Tables
  import opened System
  import opened Locks
  import opened Safety
  import opened Ownership
  import opened Replicas
  import opened Reliability
  import opened EndToEnd
  import opened Freshness
  import opened MasterIndex

  // ----- the rule

  /** The name a create in flight is about. */
  function CreateName(pc: Pc): Option<string> {
    if pc.CrLock? || pc.CrFind? || pc.CrLook? || pc.CrRead? || pc.CrCall? || pc.CrCommit? then Some(pc.r.name) else None
  }

  /** The name a delete in flight is about. */
  function DeleteName(pc: Pc): Option<string> {
    if pc.DeRead? || pc.DeLock? || pc.DeTables? || Deleting(pc) then Some(pc.name) else None
  }

  predicate Clash(pc: Pc, other: Pc) {
    || (CreateName(pc).Some? && CreateName(pc) == DeleteName(other))
    || (DeleteName(pc).Some? && DeleteName(pc) == CreateName(other))
  }

  /** No create of a name starts while a delete of it is in flight, and no delete during a create. */
  ghost predicate Separate(s: State, step: Step) {
    step.Spawn? ==> forall u | u in s.threads :: !Clash(Entry(step.call), s.threads[u])
  }

  /** At most one call in flight per volume name. */
  ghost predicate OneCall(s: State, step: Step) {
    step.Spawn? ==>
      var pc := Entry(step.call);
      forall u | u in s.threads ::
        && (CreateName(pc).Some? ==>
              CreateName(s.threads[u]) != CreateName(pc) && DeleteName(s.threads[u]) != CreateName(pc))
        && (DeleteName(pc).Some? ==>
              CreateName(s.threads[u]) != DeleteName(pc) && DeleteName(s.threads[u]) != DeleteName(pc))
  }

  lemma OneCallIsSeparate(s: State, step: Step)
    requires OneCall(s, step)
    ensures Separate(s, step)
  {
  }

  ghost predicate SeparateRun(cfg: Config, states: seq<State>, steps: seq<Step>) {
    && IsRun(cfg, states, steps)
    && forall k | 0 <= k < |steps| :: Dependable(states[k], steps[k]) && Separate(states[k], steps[k])
  }

  // ----- what a call is about stays the same

  ghost predicate KeepsNames(pc: Pc, pc': Pc) {
    && (CreateName(pc').None? || CreateName(pc') == CreateName(pc))
    && (DeleteName(pc').None? || DeleteName(pc') == DeleteName(pc))
  }

  lemma VolumeNames(cfg: Config, pc: Pc, e: Effect, pc': Pc)
    requires VolumeMoves(cfg, pc, e, pc')
    ensures KeepsNames(pc, pc')
  {
  }

  lemma RegistryNames(cfg: Config, pc: Pc, e: Effect, pc': Pc)
    requires RegistryMoves(cfg, pc, e, pc')
    ensures CreateName(pc').None? && DeleteName(pc').None?
  {
  }

  lemma CapacityNames(pc: Pc, e: Effect, pc': Pc)
    requires CapacityMoves(pc, e, pc')
    ensures CreateName(pc').None? && DeleteName(pc').None?
  {
  }

  lemma TakenNames(cfg: Config, pc: Pc)
    requires Wants(cfg, pc).Some?
    ensures KeepsNames(pc, Taken(cfg, pc))
  {
  }

  lemma StepNames(cfg: Config, pc: Pc, e: Effect, pc': Pc)
    requires Moves(cfg, pc, e, pc')
    ensures KeepsNames(pc, pc')
  {
    if Wants(cfg, pc).Some? {
      TakenNames(cfg, pc);
    } else if KeyOf(pc).Some? {
      RegistryNames(cfg, pc, e, pc');
    } else if HoldsMaster(pc) || pc.DeRead? {
      VolumeNames(cfg, pc, e, pc');
    } else {
      CapacityNames(pc, e, pc');
    }
  }

  ghost predicate NoClash(threads: map<Tid, Pc>) {
    forall t, u | t in threads && u in threads :: !Clash(threads[t], threads[u])
  }

  lemma NeverClashes(pc: Pc)
    ensures !Clash(pc, pc)
  {
  }

  lemma NoClashNext(threads: map<Tid, Pc>, t: Tid, pc: Pc)
    requires NoClash(threads) && forall u | u in threads && u != t :: !Clash(pc, threads[u])
    ensures NoClash(threads[t := pc])
  {
    NeverClashes(pc);
  }

  lemma NoClashRun(threads: map<Tid, Pc>, t: Tid, pc: Pc)
    requires NoClash(threads) && t in threads && KeepsNames(threads[t], pc)
    ensures NoClash(threads[t := pc])
  {
    forall u | u in threads && u != t ensures !Clash(pc, threads[u]) {
      assert !Clash(threads[t], threads[u]);
    }
    NoClashNext(threads, t, pc);
  }

  // ----- where a deletion's device comes from

  /** How a thread comes to hold a device read without the lock, or to delete. */
  ghost predicate ReadSource(d: Data, pc: Pc, e: Effect, pc': Pc) {
    && (pc'.DeLock? ==>
          e == Quiet && pc.DeRead? && pc'.name in d.master.byVolume && d.master.byVolume[pc'.name] == pc'.d)
    && (pc'.DeTables? ==> e == Quiet && pc.DeLock? && pc'.name == pc.name && pc'.d == pc.d)
    && (Deleting(pc') ==>
          || (pc.DeTables? && (pc'.live <==> pc.name in d.master.byVolume && d.master.byVolume[pc.name] == pc.d))
          || (Deleting(pc) && pc'.live == pc.live))
  }

  lemma VolumeReads(cfg: Config, pc: Pc, d: Data, e: Effect, pc': Pc)
    requires VolumeMoves(cfg, pc, e, pc') && Decides(cfg, pc, d, pc')
    ensures ReadSource(d, pc, e, pc')
  {
    match pc
    case DeRead(_) =>
    case DeTables(_, _) =>
    case _ =>
  }

  lemma TakenReads(cfg: Config, pc: Pc, d: Data)
    requires Wants(cfg, pc).Some?
    ensures ReadSource(d, pc, Quiet, Taken(cfg, pc))
  {
  }

  lemma NamelessReads(d: Data, pc: Pc, e: Effect, pc': Pc)
    requires DeleteName(pc').None?
    ensures ReadSource(d, pc, e, pc')
  {
  }

  lemma Reads(cfg: Config, pc: Pc, d: Data, e: Effect, pc': Pc)
    requires Moves(cfg, pc, e, pc') && Decides(cfg, pc, d, pc')
    ensures ReadSource(d, pc, e, pc')
  {
    if Wants(cfg, pc).Some? {
      TakenReads(cfg, pc, d);
    } else if KeyOf(pc).Some? {
      RegistryNames(cfg, pc, e, pc');
      NamelessReads(d, pc, e, pc');
    } else if HoldsMaster(pc) || pc.DeRead? {
      VolumeReads(cfg, pc, d, e, pc');
    } else {
      CapacityNames(pc, e, pc');
      NamelessReads(d, pc, e, pc');
    }
  }

  // ----- what a deletion has read

  /** The node that owns the device id does not know the name. */
  ghost predicate Unbound(d: Data, name: string, id: string) {
    NodeOf(id) in d.nodes ==> name !in d.nodes[NodeOf(id)].byVolume
  }

  /** A deletion that took the name off the device and is on its way to the node. */
  predicate Leaving(pc: Pc, name: string, dev: Ref) {
    Deleting(pc) && pc.live && pc.name == name && pc.d == dev
  }

  ghost predicate SomeoneLeaving(threads: map<Tid, Pc>, name: string, dev: Ref) {
    exists t :: t in threads && Leaving(threads[t], name, dev)
  }

  ghost predicate Gone(d: Data, threads: map<Tid, Pc>, name: string, dev: Ref) {
    && dev in d.master.store && name !in d.master.store[dev].volumes
    && (Unbound(d, name, d.master.store[dev].id) || SomeoneLeaving(threads, name, dev))
  }

  /** What a deletion read is current, or another deletion has been there since. */
  ghost predicate ReadOk(d: Data, threads: map<Tid, Pc>, pc: Pc) {
    && (pc.DeLock? || pc.DeTables? ==>
          if pc.name in d.master.byVolume then d.master.byVolume[pc.name] == pc.d else Gone(d, threads, pc.name, pc.d))
    && (Deleting(pc) && !pc.live ==> pc.d in d.master.store && Unbound(d, pc.name, d.master.store[pc.d].id))
  }

  ghost predicate SeparateInv(s: State) {
    NoClash(s.threads) && forall t | t in s.threads :: ReadOk(s.data, s.threads, s.threads[t])
  }

  // ----- the steps of others

  predicate Creates(e: Effect, name: string) {
    (e.Allocated? || e.Committed?) && e.r.name == name
  }

  /** The name is nowhere it was not before. */
  ghost predicate AddsNo(d: Data, d': Data, name: string) {
    && (name in d'.master.byVolume ==>
          name in d.master.byVolume && d'.master.byVolume[name] == d.master.byVolume[name])
    && (forall dev | dev in d.master.store ::
          && dev in d'.master.store && d'.master.store[dev].id == d.master.store[dev].id
          && (name in d'.master.store[dev].volumes ==> name in d.master.store[dev].volumes))
    && (forall id | Unbound(d, name, id) :: Unbound(d', name, id))
  }

  lemma MasterAddsNo(cfg: Config, d: Data, e: Effect, name: string, dev: Ref)
    requires Possible(d, e) && RefsOk(d.master) && !Creates(e, name) && dev in d.master.store
    ensures var m, m' := d.master, Apply(cfg, d, e).master;
            && dev in m'.store && m'.store[dev].id == m.store[dev].id
            && (name in m'.store[dev].volumes ==> name in m.store[dev].volumes)
  {
    StoreGrows(cfg, d, e, dev);
  }

  lemma NodesAddNo(cfg: Config, d: Data, e: Effect, name: string, id: string)
    requires Possible(d, e) && !Creates(e, name) && Unbound(d, name, id)
    ensures Unbound(Apply(cfg, d, e), name, id)
  {
  }

  lemma IndexAddsNo(cfg: Config, d: Data, e: Effect, name: string)
    requires Possible(d, e) && !Creates(e, name)
    ensures var m, m' := d.master, Apply(cfg, d, e).master;
            name in m'.byVolume ==> name in m.byVolume && m'.byVolume[name] == m.byVolume[name]
  {
  }

  lemma EffectAddsNo(cfg: Config, d: Data, e: Effect, name: string)
    requires Possible(d, e) && RefsOk(d.master) && !Creates(e, name)
    ensures AddsNo(d, Apply(cfg, d, e), name)
  {
    var d' := Apply(cfg, d, e);
    IndexAddsNo(cfg, d, e, name);
    forall dev | dev in d.master.store
      ensures && dev in d'.master.store && d'.master.store[dev].id == d.master.store[dev].id
              && (name in d'.master.store[dev].volumes ==> name in d.master.store[dev].volumes)
    {
      MasterAddsNo(cfg, d, e, name, dev);
    }
    forall id | Unbound(d, name, id) ensures Unbound(d', name, id) {
      NodesAddNo(cfg, d, e, name, id);
    }
  }

  lemma Remover(cfg: Config, d: Data, e: Effect, name: string)
    requires Possible(d, e) && name in d.master.byVolume && name !in Apply(cfg, d, e).master.byVolume
    ensures e.Dropped? && e.name == name
  {
  }

  lemma DroppedHere(cfg: Config, d: Data, name: string, dev: Ref)
    requires Possible(d, Dropped(name, dev))
    ensures var m := Apply(cfg, d, Dropped(name, dev)).master; dev in m.store && name !in m.store[dev].volumes
  {
  }

  lemma FreedHere(cfg: Config, d: Data, name: string, n: string, id: string)
    requires Possible(d, DeAllocated(name, n)) && NodeOf(id) == n
    ensures Unbound(Apply(cfg, d, DeAllocated(name, n)), name, id)
  {
  }

  lemma StillLeaving(threads: map<Tid, Pc>, t: Tid, pc: Pc, name: string, dev: Ref)
    requires SomeoneLeaving(threads, name, dev)
    requires t in threads && Leaving(threads[t], name, dev) ==> Leaving(pc, name, dev)
    ensures SomeoneLeaving(threads[t := pc], name, dev)
  {
    var u :| u in threads && Leaving(threads[u], name, dev);
    assert u != t ==> threads[t := pc][u] == threads[u];
    assert threads[t := pc][t] == pc;
  }

  lemma NowLeaving(threads: map<Tid, Pc>, t: Tid, pc: Pc, name: string, dev: Ref)
    requires Leaving(pc, name, dev)
    ensures SomeoneLeaving(threads[t := pc], name, dev)
  {
    assert threads[t := pc][t] == pc;
  }

  /** A deletion of a live volume only ends by freeing it on the node. */
  lemma LeavingEnds(s: State, t: Tid, e: Effect, pc': Pc, name: string, dev: Ref)
    requires t in s.threads && Dependable(s, Run(t, e, pc')) && Leaving(s.threads[t], name, dev)
    requires ClaimSource(s.threads[t], e, pc') && EffectSource(s.threads[t], e, pc')
    ensures Leaving(pc', name, dev)
              || (e.DeAllocated? && e.name == name && e.n == s.threads[t].node && s.threads[t].DeCall?)
  {
  }

  ghost predicate StepBase(cfg: Config, s: State, t: Tid, e: Effect, pc': Pc) {
    && LockInv(cfg, s) && SafetyInv(cfg, s) && OwnershipInv(cfg, s) && SeparateInv(s)
    && May(cfg, s, t, e, pc') && Dependable(s, Run(t, e, pc'))
    && ClaimSource(s.threads[t], e, pc') && EffectSource(s.threads[t], e, pc')
    && ReadSource(s.data, s.threads[t], e, pc')
  }

  lemma GoneNext(cfg: Config, s: State, t: Tid, e: Effect, pc': Pc, name: string, dev: Ref)
    requires StepBase(cfg, s, t, e, pc') && AddsNo(s.data, Apply(cfg, s.data, e), name)
               && Gone(s.data, s.threads, name, dev)
    ensures Gone(Apply(cfg, s.data, e), s.threads[t := pc'], name, dev)
  {
    if !Unbound(s.data, name, s.data.master.store[dev].id) {
      if Leaving(s.threads[t], name, dev) {
        LeavingEnds(s, t, e, pc', name, dev);
        if Leaving(pc', name, dev) {
          NowLeaving(s.threads, t, pc', name, dev);
        } else {
          assert Targets(s.data.master, s.threads[t]);
          FreedHere(cfg, s.data, name, e.n, s.data.master.store[dev].id);
        }
      } else {
        StillLeaving(s.threads, t, pc', name, dev);
      }
    }
  }

  lemma NoCreateNow(s: State, t: Tid, e: Effect, pc': Pc, u: Tid)
    requires t in s.threads && u in s.threads && NoClash(s.threads) && EffectSource(s.threads[t], e, pc')
    requires DeleteName(s.threads[u]).Some?
    ensures !Creates(e, DeleteName(s.threads[u]).value)
  {
    assert !Clash(s.threads[t], s.threads[u]);
  }

  lemma DroppedUnderneath(cfg: Config, s: State, t: Tid, e: Effect, pc': Pc, u: Tid)
    requires StepBase(cfg, s, t, e, pc') && u in s.threads && u != t
    requires var pc := s.threads[u];
             && (pc.DeLock? || pc.DeTables?) && pc.name in s.data.master.byVolume
             && pc.name !in Apply(cfg, s.data, e).master.byVolume
    ensures Gone(Apply(cfg, s.data, e), s.threads[t := pc'], s.threads[u].name, s.threads[u].d)
  {
    var pc := s.threads[u];
    Remover(cfg, s.data, e, pc.name);
    assert ReadOk(s.data, s.threads, s.threads[t]) && ReadOk(s.data, s.threads, pc);
    assert s.threads[t] == DeTables(pc.name, pc.d);
    DropStarts(cfg, s.threads[t], e, pc');
    DroppedHere(cfg, s.data, pc.name, pc.d);
    assert Leaving(pc', pc.name, pc.d);
    NowLeaving(s.threads, t, pc', pc.name, pc.d);
  }

  lemma OthersRead(cfg: Config, s: State, t: Tid, e: Effect, pc': Pc, u: Tid)
    requires StepBase(cfg, s, t, e, pc') && u in s.threads && u != t
    ensures ReadOk(Apply(cfg, s.data, e), s.threads[t := pc'], s.threads[u])
  {
    var pc := s.threads[u];
    assert ReadOk(s.data, s.threads, pc);
    if DeleteName(pc).Some? {
      NoCreateNow(s, t, e, pc', u);
      EffectAddsNo(cfg, s.data, e, pc.name);
      if pc.DeLock? || pc.DeTables? {
        if pc.name !in Apply(cfg, s.data, e).master.byVolume {
          if pc.name in s.data.master.byVolume {
            DroppedUnderneath(cfg, s, t, e, pc', u);
          } else {
            GoneNext(cfg, s, t, e, pc', pc.name, pc.d);
          }
        }
      }
    }
  }

  // ----- a thread's own steps

  lemma NobodyElseLeaves(cfg: Config, s: State, t: Tid, name: string, dev: Ref)
    requires LockInv(cfg, s) && t in s.threads && s.threads[t].DeTables?
    ensures !SomeoneLeaving(s.threads, name, dev)
  {
    OneMaster(cfg, s, t);
  }

  lemma DropKeepsUnbound(cfg: Config, d: Data, name: string, dev: Ref)
    requires Possible(d, Dropped(name, dev)) && Unbound(d, name, d.master.store[dev].id)
    ensures var d' := Apply(cfg, d, Dropped(name, dev));
            dev in d'.master.store && Unbound(d', name, d'.master.store[dev].id)
  {
  }

  lemma OwnRead(cfg: Config, s: State, t: Tid, e: Effect, pc': Pc)
    requires StepBase(cfg, s, t, e, pc')
    ensures ReadOk(Apply(cfg, s.data, e), s.threads[t := pc'], pc')
  {
    var pc := s.threads[t];
    assert ReadOk(s.data, s.threads, pc);
    if pc'.DeTables? {
      if pc.name !in s.data.master.byVolume && !Unbound(s.data, pc.name, s.data.master.store[pc.d].id) {
        StillLeaving(s.threads, t, pc', pc.name, pc.d);
      }
    } else if Deleting(pc') && !pc'.live && pc.DeTables? {
      NobodyElseLeaves(cfg, s, t, pc.name, pc.d);
      DropKeepsUnbound(cfg, s.data, pc.name, pc.d);
    }
  }

  // ----- runs

  lemma BaseOfStep(cfg: Config, s: State, t: Tid, e: Effect, pc': Pc)
    requires LockInv(cfg, s) && SafetyInv(cfg, s) && OwnershipInv(cfg, s) && SeparateInv(s)
    requires May(cfg, s, t, e, pc') && Dependable(s, Run(t, e, pc'))
    ensures StepBase(cfg, s, t, e, pc')
  {
    Sources(cfg, s.threads[t], e, pc');
    Reads(cfg, s.threads[t], s.data, e, pc');
  }

  lemma SeparateKeeps(cfg: Config, s: State, t: Tid, e: Effect, pc': Pc)
    requires StepBase(cfg, s, t, e, pc')
    ensures SeparateInv(Do(cfg, s, t, e, pc'))
  {
    var s' := Do(cfg, s, t, e, pc');
    StepNames(cfg, s.threads[t], e, pc');
    NoClashRun(s.threads, t, pc');
    OwnRead(cfg, s, t, e, pc');
    forall u | u in s'.threads ensures ReadOk(s'.data, s'.threads, s'.threads[u]) {
      if u != t {
        OthersRead(cfg, s, t, e, pc', u);
      }
    }
  }

  lemma UnboundIsRefused(cfg: Config, s: State, t: Tid, e: Effect, pc': Pc)
    requires StepBase(cfg, s, t, e, pc') && e.DeAllocated?
    ensures s.threads[t].DeCall? && s.threads[t].live
  {
    var pc := s.threads[t];
    assert ReadOk(s.data, s.threads, pc) && Targets(s.data.master, pc);
  }

  /** Reads that are current, or of a device the name has left: deletions are fresh. */
  lemma SeparateIsFresh(cfg: Config, s: State, t: Tid, e: Effect, pc': Pc)
    requires StepBase(cfg, s, t, e, pc')
    ensures FreshDrop(s, Run(t, e, pc')) && FreshFree(s, Run(t, e, pc'))
  {
    var pc := s.threads[t];
    if e.DeAllocated? {
      UnboundIsRefused(cfg, s, t, e, pc');
    }
    if pc.DeTables? {
      assert ReadOk(s.data, s.threads, pc);
      DropIsStep(cfg, pc, e, pc');
      DropStarts(cfg, pc, e, pc');
    }
  }

  lemma DropIsStep(cfg: Config, pc: Pc, e: Effect, pc': Pc)
    requires Moves(cfg, pc, e, pc') && pc.DeTables?
    ensures e == Dropped(pc.name, pc.d)
  {
  }

  lemma SeparateSpawn(s: State, t: Tid, call: Call)
    requires SeparateInv(s) && t !in s.threads && Separate(s, Spawn(t, call))
    ensures SeparateInv(s.(threads := s.threads[t := Entry(call)]))
  {
    var threads' := s.threads[t := Entry(call)];
    NoClashNext(s.threads, t, Entry(call));
    forall u | u in threads' ensures ReadOk(s.data, threads', threads'[u]) {
      if u != t {
        SpawnedRead(s, t, Entry(call), s.threads[u]);
      }
    }
  }

  lemma SpawnedRead(s: State, t: Tid, entry: Pc, pc: Pc)
    requires t !in s.threads && ReadOk(s.data, s.threads, pc)
    ensures ReadOk(s.data, s.threads[t := entry], pc)
  {
    if (pc.DeLock? || pc.DeTables?) && SomeoneLeaving(s.threads, pc.name, pc.d) {
      StillLeaving(s.threads, t, entry, pc.name, pc.d);
    }
  }

  lemma SeparateStart(s: State, n: string, g: Manager<Ref>)
    requires SeparateInv(s) && Booted(g, n)
    ensures SeparateInv(s.(data := s.data.(nodes := s.data.nodes[n := g])))
  {
    var d' := s.data.(nodes := s.data.nodes[n := g]);
    assert forall name, id | Unbound(s.data, name, id) :: Unbound(d', name, id);
    forall t | t in s.threads ensures ReadOk(d', s.threads, s.threads[t]) {
      assert ReadOk(s.data, s.threads, s.threads[t]);
    }
  }

  lemma SeparateNext(cfg: Config, s: State, step: Step, s': State)
    requires LockInv(cfg, s) && SafetyInv(cfg, s) && OwnershipInv(cfg, s) && SeparateInv(s)
    requires Next(cfg, s, step, s') && Dependable(s, step) && Separate(s, step)
    ensures SeparateInv(s') && FreshDrop(s, step) && FreshFree(s, step)
  {
    match step
    case Spawn(t, call) => SeparateSpawn(s, t, call);
    case Start(n, g) => SeparateStart(s, n, g);
    case Run(t, e, pc') =>
      BaseOfStep(cfg, s, t, e, pc');
      SeparateKeeps(cfg, s, t, e, pc');
      SeparateIsFresh(cfg, s, t, e, pc');
  }

  lemma SeparateStep(cfg: Config, states: seq<State>, steps: seq<Step>, k: nat)
    requires SeparateRun(cfg, states, steps) && k < |steps| && SeparateInv(states[k])
    ensures SeparateInv(states[k + 1]) && Fresh(true, states[k], steps[k])
  {
    forall j | 0 <= j < |steps| ensures StepWellReported(steps[j]) {
      assert Dependable(states[j], steps[j]);
    }
    LockInvAlways(cfg, states, steps, k);
    SafetyAlways(cfg, states, steps, k);
    OwnershipAlways(cfg, states, steps, k);
    SeparateNext(cfg, states[k], steps[k], states[k + 1]);
  }

  lemma {:induction false} SeparateAlways(cfg: Config, states: seq<State>, steps: seq<Step>, i: nat)
    requires SeparateRun(cfg, states, steps) && i < |states|
    ensures SeparateInv(states[i])
  {
    if i > 0 {
      SeparateAlways(cfg, states, steps, i - 1);
      SeparateStep(cfg, states, steps, i - 1);
    }
  }

  /** Keeping creates and deletes of a name apart is enough for deletions to be fresh: both end-to-end
      results hold in every such run, whatever else races. */
  lemma SeparateIsFreshRun(cfg: Config, states: seq<State>, steps: seq<Step>)
    requires SeparateRun(cfg, states, steps)
    ensures FreshRun(cfg, true, states, steps)
  {
    forall k | 0 <= k < |steps| ensures Fresh(true, states[k], steps[k]) {
      SeparateAlways(cfg, states, steps, k);
      SeparateStep(cfg, states, steps, k);
    }
  }

  /** In particular with one call in flight per volume name. */
  lemma OneCallIsFreshRun(cfg: Config, states: seq<State>, steps: seq<Step>)
    requires DependableRun(cfg, states, steps) && forall k | 0 <= k < |steps| :: OneCall(states[k], steps[k])
    ensures FreshRun(cfg, true, states, steps)
  {
    forall k | 0 <= k < |steps| ensures Separate(states[k], steps[k]) {
      OneCallIsSeparate(states[k], steps[k]);
    }
    SeparateIsFreshRun(cfg, states, steps);
  }

  lemma SeparateDrops(cfg: Config, s: State, step: Step, s': State)
    requires SeparateInv(s) && Next(cfg, s, step, s')
    ensures step.Run? && step.e.Dropped? ==> AtMost(s.data.master, step.e.name, step.e.d)
  {
    if step.Run? && step.e.Dropped? {
      Sources(cfg, s.threads[step.t], step.e, step.to);
      assert ReadOk(s.data, s.threads, s.threads[step.t]);
    }
  }

  /** If besides no live name is created again, every volume of the master sits on one device only. */
  lemma SeparateIsExact(cfg: Config, states: seq<State>, steps: seq<Step>, i: nat)
    requires SeparateRun(cfg, states, steps) && i < |states|
    requires forall k | 0 <= k < |steps| :: Keeps(NoLiveName, states[k], steps[k])
    ensures MasterExact(states[i].data.master)
  {
    forall k | 0 <= k < i ensures IndexStep(states[k], steps[k]) {
      SeparateAlways(cfg, states, steps, k);
      CommitsNewAlways(cfg, states, steps, k);
      SeparateDrops(cfg, states[k], steps[k], states[k + 1]);
      RecordsInOrder(cfg, states[k], steps[k], states[k + 1]);
    }
    ExactUpTo(cfg, states, steps, i);
  }
}
