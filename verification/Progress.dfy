/** The driver never deadlocks, as long as remote calls return. */
module Progress {
  import opened Devices
  import opened Tables
  import opened Registry
  import opened System
  import opened Locks
  import opened Safety

  /** Pointers nobody has used yet. */
  lemma UnusedRefs(m: Master<Ref>, count: nat) returns (refs: seq<Ref>)
    ensures |refs| == count && FreshRefs(m, refs)
  {
    var top := Above(m.store.Keys);
    refs := seq(count, k => top + k);
  }

  lemma Above(s: set<Ref>) returns (top: Ref)
    ensures forall d | d in s :: d < top
  {
    top := 0;
    var rest, seen := s, {};
    while rest != {}
      invariant rest + seen == s && forall d | d in seen :: d < top
    {
      var d :| d in rest;
      top := if d < top then top else d + 1;
      rest, seen := rest - {d}, seen + {d};
    }
    assert seen == s;
  }

  /** The listener that is told next, and what the thread does then. */
  lemma CanNotify(cfg: Config, pc: Pc) returns (e: Effect, pc': Pc)
    requires (pc.RegNext? || pc.UnNext?) && pc.todo != {}
    ensures Moves(cfg, pc, e, pc') && (e == Quiet || e.Answered? || e.Removed?)
  {
    var l :| l in pc.todo;
    if pc.UnNext? {
      e, pc' := Removed(l, pc.id, pc.info), UnNext(pc.id, pc.info, pc.todo - {l});
    } else if l == MasterListener {
      e, pc' := Quiet, AddLook(pc.id, pc.endpoint, pc.todo);
    } else {
      e, pc' := Answered(l, NodeInfo(pc.id, pc.endpoint), true), RegNext(pc.id, pc.endpoint, pc.todo - {l});
    }
  }

  lemma CanFind(cfg: Config, d: Data, r: Request) returns (pc': Pc)
    requires RefsOk(d.master)
    ensures VolumeMoves(cfg, CrFind(r), Quiet, pc') && Decides(cfg, CrFind(r), d, pc')
  {
    if n, k :|
      n in d.master.byNode && 0 <= k < |d.master.byNode[n]|
      && Verdict(cfg.parse, d.master, r.params, d.master.byNode[n][k]) == OK
    {
      pc' := CrLook(r, n, d.master.byNode[n][k]);
    } else {
      pc' := MaOut(NotFound);
    }
  }

  lemma CanRoute(cfg: Config, d: Data, pc: Pc) returns (pc': Pc)
    requires pc.DeRoute? && RefsOk(d.master) && pc.d in d.master.store
    ensures VolumeMoves(cfg, pc, Quiet, pc') && Decides(cfg, pc, d, pc')
  {
    var id := d.master.store[pc.d].id;
    if n :| n in d.master.byNode && id in ListedIDs(d.master, n) {
      pc' := DeLook(pc.name, pc.d, pc.live, n);
    } else {
      pc' := MaOut(Internal);
    }
  }

  /** The other steps of RegisterController and UnregisterController. */
  lemma CanRegister(cfg: Config, d: Data, pc: Pc) returns (e: Effect, pc': Pc)
    requires KeyOf(pc).Some? && Wants(cfg, pc).None? && RefsOk(d.master)
    ensures Moves(cfg, pc, e, pc') && Decides(cfg, pc, d, pc') && Possible(d, e)
  {
    match pc
    case RegWrite(id, endpoint) =>
      e, pc' := PutClient(NodeInfo(id, endpoint)),
          RegNext(id, endpoint, if Known(d.clients, id, endpoint) then {} else cfg.listeners);
    case RegUndo(id) => e, pc' := DropClient(id), RegOut(id, Unknown);
    case RegOut(_, code) => e, pc' := Quiet, Done(code);
    case AddRead(id, endpoint, todo) =>
      if id in d.clients {
        e, pc' := Quiet, AddList(id, endpoint, todo);
      } else {
        e, pc' := Answered(MasterListener, NodeInfo(id, endpoint), false), RegFail(id);
      }
    case AddList(id, endpoint, todo) => e, pc' := Quiet, AddLock(id, endpoint, todo, []);
    case AddTables(id, endpoint, todo, reports) =>
      var refs := UnusedRefs(d.master, |reports|);
      e, pc' := Added(NodeInfo(id, endpoint), reports, refs), RegNext(id, endpoint, todo - {MasterListener});
    case UnWrite(id) =>
      e, pc' := DropClient(id), if id in d.clients then UnNext(id, d.clients[id], cfg.listeners)
          else UnNext(id, NodeInfo(id, ""), {});
    case RegNext(id, _, todo) =>
      if todo == {} {
        e, pc' := Quiet, RegOut(id, OK);
      } else {
        e, pc' := CanNotify(cfg, pc);
      }
    case UnNext(id, _, todo) =>
      if todo == {} {
        e, pc' := Quiet, RegOut(id, OK);
      } else {
        e, pc' := CanNotify(cfg, pc);
      }
  }

  lemma CanCreate(cfg: Config, d: Data, pc: Pc) returns (e: Effect, pc': Pc)
    requires pc.CrRead? || pc.CrCall? || pc.CrCommit? || pc.MaOut?
    requires PcInv(cfg, d.master, pc)
    ensures VolumeMoves(cfg, pc, e, pc') && Decides(cfg, pc, d, pc') && Possible(d, e)
  {
    e := Quiet;
    match pc
    case CrRead(r, n, dev) => pc' := if n in d.clients then CrCall(r, n, dev) else MaOut(Internal);
    case CrCall(_, _, _) => pc' := MaOut(Internal);
    case CrCommit(r, n, dev) => e, pc' := Committed(r, n, dev), MaOut(OK);
    case MaOut(code) => pc' := Done(code);
  }

  lemma CanDelete(cfg: Config, d: Data, pc: Pc) returns (e: Effect, pc': Pc)
    requires pc.DeRead? || pc.DeTables? || pc.DeReg? || pc.DeCall?
    requires PcInv(cfg, d.master, pc)
    ensures VolumeMoves(cfg, pc, e, pc') && Decides(cfg, pc, d, pc') && Possible(d, e)
  {
    e := Quiet;
    match pc
    case DeRead(name) => pc' := if name in d.master.byVolume then DeLock(name, d.master.byVolume[name]) else Done(OK);
    case DeTables(name, dev) =>
      e, pc' := Dropped(name, dev), DeRoute(name, dev, name in d.master.byVolume && d.master.byVolume[name] == dev);
    case DeReg(name, dev, live, n) => pc' := if n in d.clients then DeCall(name, dev, live, n) else MaOut(Internal);
    case DeCall(_, _, _, _) => pc' := MaOut(Internal);
  }

  lemma CanVolume(cfg: Config, d: Data, pc: Pc) returns (e: Effect, pc': Pc)
    requires (HoldsMaster(pc) && !pc.AddTables?) || pc.DeRead?
    requires Wants(cfg, pc).None? && RefsOk(d.master) && PcInv(cfg, d.master, pc)
    ensures VolumeMoves(cfg, pc, e, pc') && Decides(cfg, pc, d, pc') && Possible(d, e)
  {
    e := Quiet;
    if pc.CrFind? {
      pc' := CanFind(cfg, d, pc.r);
    } else if pc.DeRoute? {
      pc' := CanRoute(cfg, d, pc);
    } else if pc.DeRead? || pc.DeTables? || pc.DeReg? || pc.DeCall? {
      e, pc' := CanDelete(cfg, d, pc);
    } else {
      e, pc' := CanCreate(cfg, d, pc);
    }
  }

  lemma CanCapacity(cfg: Config, d: Data, pc: Pc) returns (pc': Pc)
    requires pc.CapAtRead? || pc.CapAllRead? || pc.CapLoop? || pc.CapRead?
    ensures CapacityMoves(pc, Quiet, pc') && Decides(cfg, pc, d, pc')
  {
    match pc
    case CapAtRead(n) => pc' := if n in d.clients then CapLoop({n}) else Done(Internal);
    case CapAllRead => pc' := CapLoop(d.clients.Keys);
    case CapLoop(nodes) =>
      if nodes == {} {
        pc' := Done(OK);
      } else {
        var n :| n in nodes;
        pc' := CapLook(n, nodes - {n});
      }
    case CapRead(_, nodes) => pc' := CapLoop(nodes);
  }

  /** A thread that does not wait for a lock held by another can always take a step. */
  lemma CanStep(cfg: Config, s: State, t: Tid) returns (e: Effect, pc': Pc)
    requires LockInv(cfg, s) && SafetyInv(cfg, s) && t in s.threads && !s.threads[t].Done?
    requires Wants(cfg, s.threads[t]).Some? ==> Wants(cfg, s.threads[t]).value !in s.owner
    ensures May(cfg, s, t, e, pc')
  {
    var pc := s.threads[t];
    if Wants(cfg, pc).Some? {
      e, pc' := Quiet, Taken(cfg, pc);
      Nesting(cfg, pc);
    } else {
      if KeyOf(pc).Some? {
        e, pc' := CanRegister(cfg, s.data, pc);
      } else if HoldsMaster(pc) || pc.DeRead? {
        e, pc' := CanVolume(cfg, s.data, pc);
      } else {
        e := Quiet;
        pc' := CanCapacity(cfg, s.data, pc);
      }
      StepsTakeNoLock(cfg, pc, e, pc');
    }
  }

  /** No deadlock: in every state of every run with an unfinished call, some unfinished call can take
      a step. */
  lemma NoDeadlock(cfg: Config, states: seq<State>, steps: seq<Step>, i: nat, t: Tid)
    requires IsRun(cfg, states, steps) && i < |states|
    requires t in states[i].threads && !states[i].threads[t].Done?
    ensures exists u, e, pc' :: u in states[i].threads && !states[i].threads[u].Done? && May(cfg, states[i], u, e, pc')
  {
    LockInvAlways(cfg, states, steps, i);
    SafetyAlways(cfg, states, steps, i);
    var u := SomeoneFree(cfg, states[i], t);
    var e, pc' := CanStep(cfg, states[i], u);
  }
}
