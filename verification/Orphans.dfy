/** Volumes a node holds and the master does not know: how they come about, why deleting them does
    nothing, and what ends them. */
module Orphans {
  import opened Devices
  import opened Tables
  import opened System
  import opened Replicas
  import opened Reliability
  import opened RoundTrip
  import opened Reach

  /** A create that the node accepted and whose reply was lost, of a name nobody knew; then a delete of
      that name is answered OK, and the node still holds the volume, on the device chosen. */
  lemma LostCreateStays(cfg: Config, ps: set<Promise>, others: map<Tid, Pc>, d: Data, t: Tid, u: Tid, r: Request,
                        n: string, dev: Ref)
    requires Reached(cfg, ps, others[t := CrCall(r, n, dev)], d) && Idle(cfg, others)
    requires NoLostReply !in ps && u !in others && u != t && r.name != "" && UnknownName(d, r.name)
               && Possible(d, Allocated(r, n, dev))
    ensures var d' := Apply(cfg, d, Allocated(r, n, dev));
            && Reached(cfg, ps, others[t := Done(Internal)][u := Done(OK)], d')
            && UnknownToMaster(d'.master, r.name)
            && n in d'.nodes && r.name in d'.nodes[n].byVolume
            && d'.nodes[n].byVolume[r.name] == d'.nodes[n].byID[d.master.store[dev].id]
  {
    var d' := Apply(cfg, d, Allocated(r, n, dev));
    CreateLosesReply(cfg, ps, others, d, t, r, n, dev);
    DeleteReads(cfg, ps, others[t := Done(Internal)], d', u, r.name);
  }

  // ----- a delete of an unknown name

  lemma ReadEnds(cfg: Config, d: Data, name: string, e: Effect, pc': Pc)
    requires Moves(cfg, DeRead(name), e, pc') && Decides(cfg, DeRead(name), d, pc')
    ensures e == Quiet
    ensures if name in d.master.byVolume then pc' == DeLock(name, d.master.byVolume[name]) else pc' == Done(OK)
  {
  }

  lemma ReadNext(cfg: Config, s: State, step: Step, s': State, t: Tid, name: string)
    requires Next(cfg, s, step, s') && step.Run? && step.t == t && t in s.threads && s.threads[t] == DeRead(name)
    ensures step.e == Quiet && t in s'.threads
    ensures s'.threads[t] ==
            if name in s.data.master.byVolume then DeLock(name, s.data.master.byVolume[name]) else Done(OK)
  {
    ReadEnds(cfg, s.data, name, step.e, step.to);
  }

  lemma DoneNext(cfg: Config, s: State, step: Step, s': State, t: Tid)
    requires Next(cfg, s, step, s') && t in s.threads && s.threads[t].Done?
    ensures t in s'.threads && s'.threads[t] == s.threads[t] && !(step.Run? && step.t == t)
  {
    if step.Run? && t in s.threads {
      DoneStays(cfg, s.threads[t].code, step.e, step.to);
    }
  }

  lemma {:induction false} DoneForever(cfg: Config, states: seq<State>, steps: seq<Step>, t: Tid, i: nat, j: nat)
    requires IsRun(cfg, states, steps) && i <= j < |states| && t in states[i].threads && states[i].threads[t].Done?
    ensures t in states[j].threads && states[j].threads[t] == states[i].threads[t]
    ensures QuietFrom(steps, t, i, j)
    decreases j - i
  {
    if i < j {
      DoneNext(cfg, states[i], steps[i], states[i + 1], t);
      DoneForever(cfg, states, steps, t, i + 1, j);
    }
  }

  lemma LockedDropsNext(cfg: Config, pc: Pc, e: Effect, pc': Pc)
    requires (pc.DeLock? || pc.DeTables?) && Moves(cfg, pc, e, pc')
    ensures (pc.DeLock? && pc'.DeTables?) || e.Dropped?
  {
    if pc.DeLock? {
      assert Wants(cfg, pc).Some?;
    } else {
      assert VolumeMoves(cfg, pc, e, pc');
    }
  }

  /** Past its read, a delete cannot end without dropping the name from the master's tables. */
  lemma {:induction false} MustDrop(cfg: Config, states: seq<State>, steps: seq<Step>, t: Tid, i: nat, j: nat)
    requires IsRun(cfg, states, steps) && i <= j < |states| && t in states[i].threads
    requires states[i].threads[t].DeLock? || states[i].threads[t].DeTables?
    requires QuietFrom(steps, t, i, j)
    ensures t in states[j].threads && (states[j].threads[t].DeLock? || states[j].threads[t].DeTables?)
    decreases j - i
  {
    if i < j {
      assert Next(cfg, states[i], steps[i], states[i + 1]);
      if steps[i].Run? && steps[i].t == t {
        LockedDropsNext(cfg, states[i].threads[t], steps[i].e, steps[i].to);
      }
      MustDrop(cfg, states, steps, t, i + 1, j);
    }
  }

  /** In every run, a finished DeleteVolume has touched no table and called no node if and only if the
      master did not hold the name when it read it; and then it was answered OK. */
  lemma QuietDeleteExactly(cfg: Config, states: seq<State>, steps: seq<Step>, t: Tid, name: string, i: nat, j: nat)
    requires IsRun(cfg, states, steps) && i < j < |states|
    requires steps[i].Run? && steps[i].t == t && t in states[i].threads && states[i].threads[t] == DeRead(name)
    requires t in states[j].threads && states[j].threads[t].Done?
    ensures QuietFrom(steps, t, i, j) <==> name !in states[i].data.master.byVolume
    ensures name !in states[i].data.master.byVolume ==> states[j].threads[t] == Done(OK)
  {
    ReadNext(cfg, states[i], steps[i], states[i + 1], t, name);
    if name in states[i].data.master.byVolume {
      if QuietFrom(steps, t, i + 1, j) {
        MustDrop(cfg, states, steps, t, i + 1, j);
      }
    } else {
      DoneForever(cfg, states, steps, t, i + 1, j);
    }
  }

  // ----- what ends a node's binding

  /** The step frees the name on the node, binds it anew, or restarts the node. */
  predicate Unbinds(step: Step, n: string, v: string) {
    match step
    case Start(node, _) => node == n
    case Spawn(_, _) => false
    case Run(_, e, _) => e == DeAllocated(v, n) || (e.Allocated? && e.n == n && e.r.name == v)
  }

  ghost predicate SameBinding(d: Data, d': Data, n: string, v: string)
    requires n in d.nodes && v in d.nodes[n].byVolume
  {
    n in d'.nodes && v in d'.nodes[n].byVolume && d'.nodes[n].byVolume[v] == d.nodes[n].byVolume[v]
  }

  lemma BindingStart(d: Data, n: string, v: string, node: string, g: Manager<Ref>)
    requires n in d.nodes && v in d.nodes[n].byVolume && Booted(g, node)
    ensures SameBinding(d, d.(nodes := d.nodes[node := g]), n, v) <==> node != n
  {
  }

  lemma BindingPut(d: Data, d': Data, n: string, v: string, node: string, g: Manager<Ref>)
    requires n in d.nodes && v in d.nodes[n].byVolume && d'.nodes == d.nodes[node := g]
    ensures SameBinding(d, d', n, v) <==>
            (node == n ==> v in g.byVolume && g.byVolume[v] == d.nodes[n].byVolume[v])
  {
  }

  lemma AllocateRebinds(g: Manager<Ref>, n: string, id: string, name: string, v: string)
    requires NodeOk(g, n) && v in g.byVolume && Allocate(g, id, name).Some?
    ensures var g' := Allocate(g, id, name).value;
            v in g'.byVolume && (g'.byVolume[v] == g.byVolume[v] <==> name != v)
  {
    assert Bound(g, v);
  }

  lemma DeAllocateUnbinds(g: Manager<Ref>, name: string, v: string)
    requires ManagerRefsOk(g) && v in g.byVolume && DeAllocate(g, name).Some?
    ensures var g' := DeAllocate(g, name).value;
            v in g'.byVolume && g'.byVolume[v] == g.byVolume[v] <==> name != v
  {
  }

  lemma BindingRun(cfg: Config, d: Data, e: Effect, n: string, v: string)
    requires NodesOk(d) && Possible(d, e) && n in d.nodes && v in d.nodes[n].byVolume
    ensures SameBinding(d, Apply(cfg, d, e), n, v) <==>
            !(e == DeAllocated(v, n) || (e.Allocated? && e.n == n && e.r.name == v))
  {
    match e
    case Allocated(r, node, dev) =>
      var g := Allocate(d.nodes[node], d.master.store[dev].id, r.name).value;
      BindingPut(d, Apply(cfg, d, e), n, v, node, g);
      if node == n {
        AllocateRebinds(d.nodes[n], n, d.master.store[dev].id, r.name, v);
      }
    case DeAllocated(name, node) =>
      BindingPut(d, Apply(cfg, d, e), n, v, node, DeAllocate(d.nodes[node], name).value);
      if node == n {
        DeAllocateUnbinds(d.nodes[n], name, v);
      }
    case _ => NodesUntouched(cfg, d, e);
  }

  /** A node keeps a volume bound to its device over a step of the system if and only if the step does
      not free that name on that node, bind it anew there, or restart the node. */
  lemma BindingEndsExactly(cfg: Config, s: State, step: Step, s': State, n: string, v: string)
    requires NodesOk(s.data) && Next(cfg, s, step, s') && n in s.data.nodes && v in s.data.nodes[n].byVolume
    ensures SameBinding(s.data, s'.data, n, v) <==> !Unbinds(step, n, v)
  {
    match step
    case Spawn(_, _) =>
    case Start(node, g) => BindingStart(s.data, n, v, node, g);
    case Run(_, e, _) => BindingRun(cfg, s.data, e, n, v);
  }
}
