/** The two tables of a node: in every run the index by volume name points into the volumes of a
    device; the converse holds as long as no held name is allocated again. */
module NodeIndex {
  import opened Decimal
  import opened Tables
  import opened System
  import opened Replicas

  lemma {:induction false} NodesAlways(cfg: Config, states: seq<State>, steps: seq<Step>, i: nat)
    requires IsRun(cfg, states, steps) && i < |states|
    ensures NodesOk(states[i].data)
  {
    if i > 0 {
      NodesAlways(cfg, states, steps, i - 1);
      NodesNext(cfg, states[i - 1], steps[i - 1], states[i]);
    }
  }

  lemma NodesNext(cfg: Config, s: State, step: Step, s': State)
    requires NodesOk(s.data) && Next(cfg, s, step, s')
    ensures NodesOk(s'.data)
  {
    match step
    case Spawn(_, _) =>
    case Start(n, g) => BootedOk(g, n);
    case Run(_, e, _) => EffectKeepsNodes(cfg, s.data, e);
  }

  /** Index agreement on the nodes, in every run: restarts, lost replies, stale deletions, anything. */
  lemma NodeAlwaysIndexed(cfg: Config, states: seq<State>, steps: seq<Step>, i: nat, n: string, v: string)
    requires IsRun(cfg, states, steps) && i < |states| && n in states[i].data.nodes
               && v in states[i].data.nodes[n].byVolume
    ensures var g := states[i].data.nodes[n];
            && g.byVolume[v] in g.store && v in g.store[g.byVolume[v]].volumes
            && var id := g.store[g.byVolume[v]].id; NodeOf(id) == n && id in g.byID && g.byID[id] == g.byVolume[v]
  {
    NodesAlways(cfg, states, steps, i);
    var g := states[i].data.nodes[n];
    assert NodeOk(g, n) && Bound(g, v);
  }

  /** Every volume on a device is indexed as being there. */
  ghost predicate Exact<R>(g: Manager<R>) {
    forall d, v | d in g.store && v in g.store[d].volumes :: v in g.byVolume && g.byVolume[v] == d
  }

  /** Accepting a volume keeps the converse exactly when the node did not hold the name. */
  lemma AllocateExactly(g: Manager<Ref>, n: string, id: string, name: string)
    requires NodeOk(g, n) && Exact(g) && Allocate(g, id, name).Some?
    ensures Exact(Allocate(g, id, name).value) <==> name !in g.byVolume
  {
    var g' := Allocate(g, id, name).value;
    if name in g.byVolume {
      assert Bound(g, name);
      var d := g.byVolume[name];
      assert d != g.byID[id];
      assert name in g'.store[d].volumes && g'.byVolume[name] != d;
    }
  }

  lemma DeAllocateExact(g: Manager<Ref>, name: string)
    requires ManagerRefsOk(g) && Exact(g) && DeAllocate(g, name).Some?
    ensures Exact(DeAllocate(g, name).value)
    ensures forall d | d in DeAllocate(g, name).value.store :: name !in DeAllocate(g, name).value.store[d].volumes
  {
  }

  /** No node accepts a name it holds. */
  ghost predicate NoneTwice(d: Data, step: Step) {
    step.Run? && step.e.Allocated? ==> !(step.e.n in d.nodes && step.e.r.name in d.nodes[step.e.n].byVolume)
  }

  ghost predicate AllExact(d: Data) {
    forall n | n in d.nodes :: Exact(d.nodes[n])
  }

  lemma EffectKeepsExact(cfg: Config, d: Data, e: Effect)
    requires Possible(d, e) && NodesOk(d) && AllExact(d)
    requires e.Allocated? ==> e.r.name !in d.nodes[e.n].byVolume
    ensures AllExact(Apply(cfg, d, e))
  {
    match e
    case Allocated(r, n, dev) => AllocateExactly(d.nodes[n], n, d.master.store[dev].id, r.name);
    case DeAllocated(name, n) => DeAllocateExact(d.nodes[n], name);
    case _ =>
  }

  lemma {:induction false} ExactAlways(cfg: Config, states: seq<State>, steps: seq<Step>, i: nat)
    requires IsRun(cfg, states, steps) && i < |states|
    requires forall k | 0 <= k < |steps| :: NoneTwice(states[k].data, steps[k])
    ensures AllExact(states[i].data)
  {
    if i > 0 {
      ExactAlways(cfg, states, steps, i - 1);
      NodesAlways(cfg, states, steps, i - 1);
      ExactNext(cfg, states[i - 1], steps[i - 1], states[i]);
    }
  }

  lemma ExactNext(cfg: Config, s: State, step: Step, s': State)
    requires NodesOk(s.data) && AllExact(s.data) && Next(cfg, s, step, s') && NoneTwice(s.data, step)
    ensures AllExact(s'.data)
  {
    if step.Run? {
      EffectKeepsExact(cfg, s.data, step.e);
    }
  }

  /** In such runs each volume of a node sits on exactly one device: the one it is indexed under. */
  lemma OneDeviceEach(cfg: Config, states: seq<State>, steps: seq<Step>, i: nat, n: string, v: string)
    requires IsRun(cfg, states, steps) && i < |states| && n in states[i].data.nodes
    requires forall k | 0 <= k < |steps| :: NoneTwice(states[k].data, steps[k])
    ensures var g := states[i].data.nodes[n];
            && (forall d :: d in g.store && v in g.store[d].volumes <==> v in g.byVolume && g.byVolume[v] == d)
            && (forall d, d' | d in g.store && d' in g.store && v in g.store[d].volumes
                  && v in g.store[d'].volumes :: d == d')
  {
    ExactAlways(cfg, states, steps, i);
    assert Exact(states[i].data.nodes[n]);
    if v in states[i].data.nodes[n].byVolume {
      NodeAlwaysIndexed(cfg, states, steps, i, n, v);
    }
  }
}
