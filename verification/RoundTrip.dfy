/** Creating a volume and then deleting it leaves no trace. */
module RoundTrip {
  import opened Wrappers
  import opened Devices
  import opened Tables
  import opened System
  import opened Ownership

  ghost predicate UnknownToMaster<R>(m: Master<R>, name: string) {
    name !in m.byVolume && forall d | d in m.store :: name !in m.store[d].volumes
  }

  ghost predicate UnknownToNode<R>(g: Manager<R>, name: string) {
    name !in g.byVolume && forall d | d in g.store :: name !in g.store[d].volumes
  }

  /** The master's two writes and two deletions cancel out. */
  lemma MasterRoundTrip<R>(m: Master<R>, d: R, name: string, v: Volume)
    requires d in m.store && UnknownToMaster(m, name)
    ensures SetVolume(m, d, name, v).byVolume[name] == d
    ensures DropVolume(SetVolume(m, d, name, v), d, name) == m
  {
    var m' := DropVolume(SetVolume(m, d, name, v), d, name);
    assert m'.byVolume == m.byVolume;
    assert m'.store[d].volumes == m.store[d].volumes;
    assert m'.store == m.store;
  }

  /** So do the node's. */
  lemma NodeRoundTrip<R>(g: Manager<R>, id: string, name: string)
    requires ManagerRefsOk(g) && UnknownToNode(g, name)
    ensures Allocate(g, id, name).Some? <==> id in g.byID
    ensures Allocate(g, id, name).Some? ==>
              ManagerRefsOk(Allocate(g, id, name).value) && DeAllocate(Allocate(g, id, name).value, name) == Some(g)
  {
    if id in g.byID {
      var g1 := Allocate(g, id, name).value;
      var g2 := DeAllocate(g1, name).value;
      assert g2.byVolume == g.byVolume;
      assert g2.store[g.byID[id]].volumes == g.store[g.byID[id]].volumes;
      assert g2.store == g.store;
    }
  }

  ghost predicate UnknownName(d: Data, name: string) {
    UnknownToMaster(d.master, name) && forall n | n in d.nodes :: UnknownToNode(d.nodes[n], name)
  }

  predicate Creating(pc: Pc) {
    pc.CrLock? || pc.CrFind? || pc.CrLook? || pc.CrRead? || pc.CrCall? || pc.CrCommit?
  }

  /** A CreateVolume changes the master's tables only in the step that makes it succeed: one that ends
      in an error leaves them as they were, whatever the node did. */
  lemma OnlySuccessWrites(cfg: Config, d: Data, pc: Pc, e: Effect, pc': Pc)
    requires Creating(pc) && Moves(cfg, pc, e, pc') && Possible(d, e)
    ensures Creating(pc') || pc'.MaOut?
    ensures Apply(cfg, d, e).master != d.master ==> pc' == MaOut(OK)
    ensures pc' == MaOut(OK) ==>
              && pc.CrCommit?
              && Apply(cfg, d, e).master ==
                   SetVolume(d.master, pc.d, pc.r.name, VolumeOf(cfg, d.master, pc.r, pc.node, pc.d))
  {
    CreateSteps(cfg, pc, e, pc');
  }

  /** A create either goes on, or ends; only the last step, and only with success, records. */
  ghost predicate CreateStep(pc: Pc, e: Effect, pc': Pc) {
    && (Creating(pc') || pc'.MaOut?)
    && if pc.CrCommit? then e == Committed(pc.r, pc.node, pc.d) && pc' == MaOut(OK)
       else (e == Quiet || e.Allocated?) && pc' != MaOut(OK)
  }

  lemma CreateTakes(cfg: Config, pc: Pc)
    requires Creating(pc) && Wants(cfg, pc).Some?
    ensures CreateStep(pc, Quiet, Taken(cfg, pc))
  {
  }

  lemma CreateMoves(cfg: Config, pc: Pc, e: Effect, pc': Pc)
    requires Creating(pc) && VolumeMoves(cfg, pc, e, pc')
    ensures CreateStep(pc, e, pc')
  {
  }

  lemma CreateSteps(cfg: Config, pc: Pc, e: Effect, pc': Pc)
    requires Creating(pc) && Moves(cfg, pc, e, pc')
    ensures CreateStep(pc, e, pc')
  {
    if Wants(cfg, pc).Some? {
      CreateTakes(cfg, pc);
    } else {
      CreateMoves(cfg, pc, e, pc');
    }
  }

  /** The system after a CreateVolume that succeeds. */
  ghost function AfterCreate(cfg: Config, d: Data, r: Request, n: string, dev: Ref): Data
    requires Possible(d, Allocated(r, n, dev))
  {
    Apply(cfg, Apply(cfg, d, Allocated(r, n, dev)), Committed(r, n, dev))
  }

  /** The system after a DeleteVolume that is carried out on the node. */
  ghost function AfterDelete(cfg: Config, d: Data, name: string, n: string, dev: Ref): Data
    requires Possible(d, Dropped(name, dev)) && Possible(Apply(cfg, d, Dropped(name, dev)), DeAllocated(name, n))
  {
    Apply(cfg, Apply(cfg, d, Dropped(name, dev)), DeAllocated(name, n))
  }

  lemma CreatedIs(cfg: Config, d: Data, r: Request, n: string, dev: Ref)
    requires Possible(d, Allocated(r, n, dev))
    ensures AfterCreate(cfg, d, r, n, dev).master ==
              SetVolume(d.master, dev, r.name, VolumeOf(cfg, d.master, r, n, dev))
    ensures AfterCreate(cfg, d, r, n, dev).nodes ==
              d.nodes[n := Allocate(d.nodes[n], d.master.store[dev].id, r.name).value]
  {
  }

  lemma DeletedIs(cfg: Config, d: Data, name: string, n: string, dev: Ref)
    requires dev in d.master.store && n in d.nodes && ManagerRefsOk(d.nodes[n]) && DeAllocate(d.nodes[n], name).Some?
    ensures Possible(d, Dropped(name, dev)) && Possible(Apply(cfg, d, Dropped(name, dev)), DeAllocated(name, n))
    ensures AfterDelete(cfg, d, name, n, dev).master == DropVolume(d.master, dev, name)
    ensures AfterDelete(cfg, d, name, n, dev).nodes == d.nodes[n := DeAllocate(d.nodes[n], name).value]
  {
  }

  lemma RoutesTo(cfg: Config, d: Data, r: Request, n: string, dev: Ref, answer: Option<string>)
    requires TablesInv(d.master) && Listed(d.master, n, dev) && Possible(d, Allocated(r, n, dev))
    requires var m := AfterCreate(cfg, d, r, n, dev).master;
             RefsOk(m) && RouteOutcome(m, d.master.store[dev].id, answer)
    ensures answer == Some(n)
  {
    var m := AfterCreate(cfg, d, r, n, dev).master;
    CreatedIs(cfg, d, r, n, dev);
    assert TablesInv(m) && Listed(m, n, dev);
    ListedHasID(m, n, dev);
    RouteUnique(m, d.master.store[dev].id, n, answer);
  }

  lemma PutBack<K, V>(m: map<K, V>, k: K, v: V)
    requires k in m
    ensures m[k := v][k := m[k]] == m
  {
  }

  /** Creating and then deleting a volume whose name nobody in the system knows: the deletion finds the
      device, is sent to the node that has it and to no other, is not refused there, and afterwards every
      table, every device's volumes, and so every amount in use, is as it was, on the master and on
      every node. */
  lemma CreateThenDelete(cfg: Config, d: Data, r: Request, n: string, dev: Ref, answer: Option<string>)
    requires TablesInv(d.master) && UnknownName(d, r.name) && Listed(d.master, n, dev)
               && Possible(d, Allocated(r, n, dev))
    requires var m := AfterCreate(cfg, d, r, n, dev).master;
             RefsOk(m) && RouteOutcome(m, d.master.store[dev].id, answer)
    ensures var d1 := AfterCreate(cfg, d, r, n, dev);
            && r.name in d1.master.byVolume && d1.master.byVolume[r.name] == dev
            && answer == Some(n)
            && Possible(d1, Dropped(r.name, dev))
                 && Possible(Apply(cfg, d1, Dropped(r.name, dev)), DeAllocated(r.name, n))
            && var d2 := AfterDelete(cfg, d1, r.name, n, dev);
            d2.master == d.master && d2.nodes == d.nodes
  {
    var id := d.master.store[dev].id;
    CreatedIs(cfg, d, r, n, dev);
    MasterRoundTrip(d.master, dev, r.name, VolumeOf(cfg, d.master, r, n, dev));
    NodeRoundTrip(d.nodes[n], id, r.name);
    RoutesTo(cfg, d, r, n, dev, answer);
    DeletedIs(cfg, AfterCreate(cfg, d, r, n, dev), r.name, n, dev);
    PutBack(d.nodes, n, Allocate(d.nodes[n], id, r.name).value);
  }
}
