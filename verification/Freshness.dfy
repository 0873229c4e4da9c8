/** Deletions that act on what is still so: they free what they should, and nothing else. */
module Freshness {
  import opened Tables
  import opened System
  import opened Locks
  import opened Safety
  import opened Ownership
  import opened Replicas
  import opened Reliability
  import opened EndToEnd

  /** A deletion that takes a name off the device it read before the lock is of a live volume: the device
      is still the one the master has for the name. */
  ghost predicate FreshDrop(s: State, step: Step) {
    step.Run? && step.t in s.threads ==>
      var pc := s.threads[step.t];
      pc.DeTables? && pc.d in s.data.master.store && pc.name in s.data.master.store[pc.d].volumes ==>
        step.to.DeRoute? && step.to.live
  }

  /** A node frees something only for such a deletion. */
  ghost predicate FreshFree(s: State, step: Step) {
    step.Run? && step.t in s.threads && step.e.DeAllocated? ==> s.threads[step.t].DeCall? && s.threads[step.t].live
  }

  ghost predicate Fresh(exact: bool, s: State, step: Step) {
    Dependable(s, step) && FreshDrop(s, step) && (exact ==> FreshFree(s, step))
  }

  ghost predicate FreshRun(cfg: Config, exact: bool, states: seq<State>, steps: seq<Step>) {
    IsRun(cfg, states, steps) && forall k | 0 <= k < |steps| :: Fresh(exact, states[k], steps[k])
  }

  // ----- stale deletions have nothing to free

  ghost predicate Clear(d: Data, pc: Pc) {
    Deleting(pc) && !pc.live ==> pc.d in d.master.store && pc.name !in Grants(d.granted, d.master.store[pc.d].id)
  }

  ghost predicate AllClear(s: State) {
    forall t | t in s.threads :: Clear(s.data, s.threads[t])
  }

  lemma ClearFrame(cfg: Config, d: Data, e: Effect, pc: Pc)
    requires Possible(d, e) && !e.Allocated? && !e.DeAllocated? && RefsOk(d.master) && Clear(d, pc)
    ensures Clear(Apply(cfg, d, e), pc)
  {
    if Deleting(pc) && !pc.live {
      StoreGrows(cfg, d, e, pc.d);
    }
  }

  lemma NothingPends(cfg: Config, exact: bool, s: State, t: Tid)
    requires LockInv(cfg, s) && AccountInv(cfg, exact, s) && t in s.threads && s.threads[t].DeTables?
    ensures KeepInv(cfg, exact, s.data, Settled)
  {
    OthersSettled(cfg, s, t);
    var phase :| Pends(s.threads, phase) && KeepInv(cfg, exact, s.data, phase);
    assert phase == Settled;
  }

  lemma StaleIsClear(cfg: Config, s: State, t: Tid, e: Effect, pc': Pc)
    requires LockInv(cfg, s) && SafetyInv(cfg, s) && AccountInv(cfg, false, s) && t in s.threads
    requires FreshDrop(s, Run(t, e, pc')) && s.threads[t].DeTables? && e == Dropped(s.threads[t].name, s.threads[t].d)
    requires Possible(s.data, e) && pc'.DeRoute? && pc'.name == s.threads[t].name && pc'.d == s.threads[t].d
    ensures Clear(Apply(cfg, s.data, e), pc')
  {
    var pc := s.threads[t];
    NothingPends(cfg, false, s, t);
    assert Kept(cfg, false, s.data, Settled, pc.d);
  }

  lemma OwnClear(cfg: Config, s: State, t: Tid, e: Effect, pc': Pc)
    requires LockInv(cfg, s) && SafetyInv(cfg, s) && AccountInv(cfg, false, s) && AllClear(s)
    requires May(cfg, s, t, e, pc') && FreshDrop(s, Run(t, e, pc')) && ClaimSource(s.threads[t], e, pc')
    ensures Clear(Apply(cfg, s.data, e), pc')
  {
    if Deleting(pc') {
      if s.threads[t].DeTables? {
        StaleIsClear(cfg, s, t, e, pc');
      } else {
        assert Clear(s.data, s.threads[t]);
      }
    }
  }

  lemma OthersClear(cfg: Config, s: State, t: Tid, e: Effect, pc': Pc, u: Tid)
    requires LockInv(cfg, s) && SafetyInv(cfg, s) && AllClear(s) && t in s.threads && u in s.threads && u != t
    requires Possible(s.data, e) && EffectSource(s.threads[t], e, pc')
    ensures Clear(Apply(cfg, s.data, e), s.threads[u])
  {
    if Heavy(e) {
      HeavyHoldsMaster(s.threads[t], e, pc');
      OneMaster(cfg, s, t);
    } else {
      ClearFrame(cfg, s.data, e, s.threads[u]);
    }
  }

  lemma ClearRun(cfg: Config, s: State, t: Tid, e: Effect, pc': Pc)
    requires LockInv(cfg, s) && SafetyInv(cfg, s) && AccountInv(cfg, false, s) && AllClear(s)
    requires May(cfg, s, t, e, pc') && FreshDrop(s, Run(t, e, pc'))
    ensures AllClear(Do(cfg, s, t, e, pc'))
  {
    var s' := Do(cfg, s, t, e, pc');
    Sources(cfg, s.threads[t], e, pc');
    OwnClear(cfg, s, t, e, pc');
    forall u | u in s'.threads ensures Clear(s'.data, s'.threads[u]) {
      if u != t {
        OthersClear(cfg, s, t, e, pc', u);
      }
    }
  }

  lemma ClearNext(cfg: Config, s: State, step: Step, s': State)
    requires LockInv(cfg, s) && SafetyInv(cfg, s) && AccountInv(cfg, false, s) && AllClear(s)
    requires Next(cfg, s, step, s') && FreshDrop(s, step)
    ensures AllClear(s')
  {
    match step
    case Spawn(t, call) => assert !Deleting(Entry(call));
    case Start(_, _) =>
    case Run(t, e, pc') => ClearRun(cfg, s, t, e, pc');
  }

  // ----- fresh deletions free what they should

  lemma LiveFrees(d: Data, pc: Pc, e: Effect, pc': Pc)
    requires PcReplica(d, pc) && Targets(d.master, pc) && EffectSource(pc, e, pc')
    requires e.DeAllocated? && pc.DeCall? && pc.live
    ensures pc.d in d.master.store && FreesFrom(d, e, d.master.store[pc.d].id)
  {
  }

  lemma ClearHasNothing(cfg: Config, s: State, pc: Pc)
    requires AccountInv(cfg, false, s) && Clear(s.data, pc) && Deleting(pc) && !pc.live
    ensures pc.d in s.data.master.store && !OnDevice(s.data, s.data.master.store[pc.d].id, pc.name)
  {
    var phase :| Pends(s.threads, phase) && KeepInv(cfg, false, s.data, phase);
    assert Kept(cfg, false, s.data, phase, pc.d);
    GrantedOnDevice(s.data, s.data.master.store[pc.d].id, s.data.master.store[pc.d].params, pc.name);
  }

  lemma FreshFrees(exact: bool, s: State, t: Tid, e: Effect, pc': Pc)
    requires t in s.threads && Fresh(exact, s, Run(t, e, pc')) && EffectSource(s.threads[t], e, pc')
    requires var pc := s.threads[t];
             && (Deleting(pc) && !pc.live ==>
                   pc.d in s.data.master.store && !OnDevice(s.data, s.data.master.store[pc.d].id, pc.name))
             && (e.DeAllocated? && pc.DeCall? && pc.live ==>
                   pc.d in s.data.master.store && FreesFrom(s.data, e, s.data.master.store[pc.d].id))
    ensures Orderly(exact, s, Run(t, e, pc'))
  {
  }

  lemma FreshIsOrderlyStep(cfg: Config, exact: bool, s: State, t: Tid, e: Effect, pc': Pc)
    requires BaseInv(cfg, s) && AccountInv(cfg, false, s) && AllClear(s)
    requires May(cfg, s, t, e, pc') && Fresh(exact, s, Run(t, e, pc'))
    ensures Orderly(exact, s, Run(t, e, pc'))
  {
    var pc := s.threads[t];
    Sources(cfg, pc, e, pc');
    if Deleting(pc) && !pc.live {
      ClearHasNothing(cfg, s, pc);
    }
    if e.DeAllocated? && pc.DeCall? && pc.live {
      LiveFrees(s.data, pc, e, pc');
    }
    FreshFrees(exact, s, t, e, pc');
  }

  lemma FreshIsOrderly(cfg: Config, exact: bool, s: State, step: Step, s': State)
    requires BaseInv(cfg, s) && AccountInv(cfg, false, s) && AllClear(s)
    requires Next(cfg, s, step, s') && Fresh(exact, s, step)
    ensures Orderly(exact, s, step)
  {
    if step.Run? {
      FreshIsOrderlyStep(cfg, exact, s, step.t, step.e, step.to);
    }
  }

  lemma OrderlyWeakens(exact: bool, s: State, step: Step)
    requires Orderly(exact, s, step)
    ensures Orderly(false, s, step)
  {
  }

  lemma FreshIsSteadyRun(cfg: Config, exact: bool, states: seq<State>, steps: seq<Step>)
    requires FreshRun(cfg, exact, states, steps)
    ensures SteadyRun(cfg, states, steps)
  {
    forall k | 0 <= k < |steps| ensures Steady(states[k], steps[k]) {
      assert Fresh(exact, states[k], steps[k]);
    }
  }

  lemma FreshStep(cfg: Config, exact: bool, states: seq<State>, steps: seq<Step>, k: nat)
    requires FreshRun(cfg, exact, states, steps) && k < |steps| && AccountInv(cfg, false, states[k])
               && AllClear(states[k])
    ensures Orderly(exact, states[k], steps[k]) && AccountInv(cfg, false, states[k + 1]) && AllClear(states[k + 1])
  {
    FreshIsSteadyRun(cfg, exact, states, steps);
    BaseAlways(cfg, states, steps, k);
    FreshIsOrderly(cfg, exact, states[k], steps[k], states[k + 1]);
    OrderlyWeakens(exact, states[k], steps[k]);
    AccountStep(cfg, false, states, steps, k);
    ClearNext(cfg, states[k], steps[k], states[k + 1]);
  }

  lemma {:induction false} FreshAlways(cfg: Config, exact: bool, states: seq<State>, steps: seq<Step>, i: nat)
    requires FreshRun(cfg, exact, states, steps) && i < |states|
    ensures AccountInv(cfg, false, states[i]) && AllClear(states[i])
  {
    if i == 0 {
      AccountInit(cfg, false);
    } else {
      FreshAlways(cfg, exact, states, steps, i - 1);
      FreshStep(cfg, exact, states, steps, i - 1);
    }
  }

  /** With dependable nodes, fresh drops are enough for no overcommitment on the nodes; if nodes besides
      free only for live deletions, both sides agree. */
  lemma FreshIsOrderlyRun(cfg: Config, exact: bool, states: seq<State>, steps: seq<Step>)
    requires FreshRun(cfg, exact, states, steps)
    ensures OrderlyRun(cfg, exact, states, steps)
  {
    forall k | 0 <= k < |steps| ensures Orderly(exact, states[k], steps[k]) {
      FreshAlways(cfg, exact, states, steps, k);
      FreshStep(cfg, exact, states, steps, k);
    }
  }

  /** The two end-to-end results, for fresh runs. */
  lemma FreshNeverOvercommits(cfg: Config, states: seq<State>, steps: seq<Step>, i: nat, n: string, id: string)
    requires FreshRun(cfg, false, states, steps) && i < |states|
    requires n in states[i].data.nodes && id in states[i].data.nodes[n].byID
    ensures var d := states[i].data;
            && d.nodes[n].byID[id] in d.nodes[n].store
            && FitsOnNode(cfg, d.nodes[n].store[d.nodes[n].byID[id]], Grants(d.granted, id))
  {
    FreshIsOrderlyRun(cfg, false, states, steps);
    NodeNeverOvercommitted(cfg, states, steps, i, n, id);
  }
}
