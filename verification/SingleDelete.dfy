/** Another way to keep deletions fresh: never create a live name, and have at most one delete of a name
    in flight. Creates of the name may race the delete. */
module SingleDelete {
  import opened Tables
  import opened System
  import opened Replicas
  import opened Reliability
  import opened EndToEnd
  import opened Freshness
  import opened MasterIndex
  import opened Separation

  /** No delete of a name starts while another is in flight. */
  ghost predicate OneDelete(s: State, step: Step) {
    step.Spawn? && DeleteName(Entry(step.call)).Some? ==>
      forall u | u in s.threads :: DeleteName(s.threads[u]) != DeleteName(Entry(step.call))
  }

  ghost predicate SingleRun(cfg: Config, states: seq<State>, steps: seq<Step>) {
    && IsRun(cfg, states, steps)
    && forall k | 0 <= k < |steps| ::
         OneDelete(states[k], steps[k]) && Keeps(NoLiveName, states[k], steps[k])
  }

  ghost predicate DeletesApart(threads: map<Tid, Pc>) {
    forall t, u | t in threads && u in threads && t != u && DeleteName(threads[t]).Some? ::
      DeleteName(threads[t]) != DeleteName(threads[u])
  }

  lemma ApartNext(threads: map<Tid, Pc>, t: Tid, pc: Pc)
    requires DeletesApart(threads)
    requires DeleteName(pc).Some? ==> forall u | u in threads && u != t :: DeleteName(threads[u]) != DeleteName(pc)
    ensures DeletesApart(threads[t := pc])
  {
  }

  /** What a deletion read is current, and what it dropped was live. */
  ghost predicate Current(m: Master<Ref>, pc: Pc) {
    && (pc.DeLock? || pc.DeTables? ==> pc.name in m.byVolume && m.byVolume[pc.name] == pc.d)
    && (Deleting(pc) ==> pc.live)
  }

  ghost predicate SingleInv(s: State) {
    DeletesApart(s.threads) && forall t | t in s.threads :: Current(s.data.master, s.threads[t])
  }

  lemma OwnCurrent(cfg: Config, d: Data, pc: Pc, e: Effect, pc': Pc)
    requires Possible(d, e) && Current(d.master, pc) && ReadSource(d, pc, e, pc')
    ensures Current(Apply(cfg, d, e).master, pc')
  {
  }

  lemma OthersCurrent(cfg: Config, s: State, t: Tid, e: Effect, pc': Pc, u: Tid)
    requires CommitsNew(s) && SingleInv(s) && t in s.threads && u in s.threads && u != t
    requires Possible(s.data, e) && EffectSource(s.threads[t], e, pc')
    ensures Current(Apply(cfg, s.data, e).master, s.threads[u])
  {
    assert Current(s.data.master, s.threads[u]);
    if !e.Added? && !e.Committed? && !e.Dropped? {
      NoVolumeWritten(cfg, s.data, e);
    }
  }

  lemma SingleRunStep(cfg: Config, s: State, t: Tid, e: Effect, pc': Pc)
    requires CommitsNew(s) && SingleInv(s) && May(cfg, s, t, e, pc')
    ensures SingleInv(Do(cfg, s, t, e, pc'))
  {
    var pc, s' := s.threads[t], Do(cfg, s, t, e, pc');
    Sources(cfg, pc, e, pc');
    StepNames(cfg, pc, e, pc');
    Reads(cfg, pc, s.data, e, pc');
    ApartNext(s.threads, t, pc');
    OwnCurrent(cfg, s.data, pc, e, pc');
    forall u | u in s'.threads ensures Current(s'.data.master, s'.threads[u]) {
      if u != t {
        OthersCurrent(cfg, s, t, e, pc', u);
      }
    }
  }

  lemma SingleSpawn(s: State, t: Tid, call: Call)
    requires SingleInv(s) && t !in s.threads && OneDelete(s, Spawn(t, call))
    ensures SingleInv(s.(threads := s.threads[t := Entry(call)]))
  {
    ApartNext(s.threads, t, Entry(call));
  }

  lemma SingleNext(cfg: Config, s: State, step: Step, s': State)
    requires CommitsNew(s) && SingleInv(s) && Next(cfg, s, step, s') && OneDelete(s, step)
    ensures SingleInv(s')
  {
    match step
    case Spawn(t, call) => SingleSpawn(s, t, call);
    case Start(_, _) =>
    case Run(t, e, pc') => SingleRunStep(cfg, s, t, e, pc');
  }

  lemma SingleStep(cfg: Config, states: seq<State>, steps: seq<Step>, k: nat)
    requires SingleRun(cfg, states, steps) && k < |steps| && SingleInv(states[k])
    ensures SingleInv(states[k + 1])
  {
    CommitsNewAlways(cfg, states, steps, k);
    SingleNext(cfg, states[k], steps[k], states[k + 1]);
  }

  lemma {:induction false} SingleAlways(cfg: Config, states: seq<State>, steps: seq<Step>, i: nat)
    requires SingleRun(cfg, states, steps) && i < |states|
    ensures SingleInv(states[i])
  {
    if i > 0 {
      SingleAlways(cfg, states, steps, i - 1);
      SingleStep(cfg, states, steps, i - 1);
    }
  }

  lemma CurrentIsFresh(cfg: Config, s: State, t: Tid, e: Effect, pc': Pc)
    requires SingleInv(s) && May(cfg, s, t, e, pc')
    ensures FreshDrop(s, Run(t, e, pc')) && FreshFree(s, Run(t, e, pc'))
  {
    var pc := s.threads[t];
    Sources(cfg, pc, e, pc');
    assert Current(s.data.master, pc);
    if pc.DeTables? {
      DropIsStep(cfg, pc, e, pc');
      DropStarts(cfg, pc, e, pc');
    }
  }

  /** Every deletion is fresh, so both end-to-end results hold. */
  lemma SingleIsFreshRun(cfg: Config, states: seq<State>, steps: seq<Step>)
    requires DependableRun(cfg, states, steps) && SingleRun(cfg, states, steps)
    ensures FreshRun(cfg, true, states, steps)
  {
    forall k | 0 <= k < |steps| ensures Fresh(true, states[k], steps[k]) {
      SingleAlways(cfg, states, steps, k);
      assert Next(cfg, states[k], steps[k], states[k + 1]);
      if steps[k].Run? {
        CurrentIsFresh(cfg, states[k], steps[k].t, steps[k].e, steps[k].to);
      }
    }
  }

  lemma SingleDrops(cfg: Config, s: State, step: Step, s': State)
    requires SingleInv(s) && Next(cfg, s, step, s')
    ensures step.Run? && step.e.Dropped? ==> AtMost(s.data.master, step.e.name, step.e.d)
  {
    if step.Run? && step.e.Dropped? {
      Sources(cfg, s.threads[step.t], step.e, step.to);
      assert Current(s.data.master, s.threads[step.t]);
    }
  }

  /** And every volume of the master sits on one device only, whatever nodes and network do. */
  lemma SingleIsExact(cfg: Config, states: seq<State>, steps: seq<Step>, i: nat)
    requires SingleRun(cfg, states, steps) && i < |states|
    ensures MasterExact(states[i].data.master)
  {
    forall k | 0 <= k < i ensures IndexStep(states[k], steps[k]) {
      SingleAlways(cfg, states, steps, k);
      CommitsNewAlways(cfg, states, steps, k);
      SingleDrops(cfg, states[k], steps[k], states[k + 1]);
      RecordsInOrder(cfg, states[k], steps[k], states[k + 1]);
    }
    ExactUpTo(cfg, states, steps, i);
  }
}
