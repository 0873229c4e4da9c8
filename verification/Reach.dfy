/** Building runs one call at a time, and keeping promises on the way. */
module Reach {
  import opened Wrappers
  import opened Devices
  import opened Tables
  import opened Registry
  import opened System
  import opened Locks
  import opened Ownership
  import opened Replicas
  import opened Reliability
  import opened RoundTrip

  ghost predicate KeepsAll(ps: set<Promise>, s: State, step: Step) {
    forall p | p in ps :: Keeps(p, s, step)
  }

  ghost predicate KeepingRun(cfg: Config, ps: set<Promise>, states: seq<State>, steps: seq<Step>) {
    IsRun(cfg, states, steps) && forall k | 0 <= k < |steps| :: KeepsAll(ps, states[k], steps[k])
  }

  /** Some run leads to the state in which every step keeps the promises. */
  ghost predicate Reachable(cfg: Config, ps: set<Promise>, s: State) {
    exists states, steps :: KeepingRun(cfg, ps, states, steps) && states[|steps|] == s
  }

  /** To these threads and these data. */
  ghost predicate Reached(cfg: Config, ps: set<Promise>, threads: map<Tid, Pc>, d: Data) {
    exists s :: Reachable(cfg, ps, s) && s.threads == threads && s.data == d
  }

  /** None of the threads holds a lock. */
  ghost predicate Idle(cfg: Config, threads: map<Tid, Pc>) {
    forall t | t in threads :: Held(cfg, threads[t]) == {}
  }

  lemma ReachInit(cfg: Config, ps: set<Promise>)
    ensures Reached(cfg, ps, map[], INIT.data)
  {
    var states: seq<State>, steps: seq<Step> := [INIT], [];
    assert KeepingRun(cfg, ps, states, steps) && states[|steps|] == INIT;
    assert Reachable(cfg, ps, INIT);
  }

  lemma Extend(cfg: Config, ps: set<Promise>, states: seq<State>, steps: seq<Step>, step: Step, s': State)
    requires KeepingRun(cfg, ps, states, steps) && Next(cfg, states[|steps|], step, s')
    requires KeepsAll(ps, states[|steps|], step)
    ensures KeepingRun(cfg, ps, states + [s'], steps + [step])
  {
    var states', steps' := states + [s'], steps + [step];
    forall k | 0 <= k < |steps'|
      ensures Next(cfg, states'[k], steps'[k], states'[k + 1]) && KeepsAll(ps, states'[k], steps'[k])
    {
      if k < |steps| {
        assert Next(cfg, states[k], steps[k], states[k + 1]) && KeepsAll(ps, states[k], steps[k]);
      }
    }
  }

  lemma ReachNext(cfg: Config, ps: set<Promise>, s: State, step: Step, s': State)
    requires Reachable(cfg, ps, s) && Next(cfg, s, step, s') && KeepsAll(ps, s, step)
    ensures Reachable(cfg, ps, s')
  {
    var states, steps :| KeepingRun(cfg, ps, states, steps) && states[|steps|] == s;
    Extend(cfg, ps, states, steps, step, s');
    assert (states + [s'])[|steps + [step]|] == s';
  }

  lemma ReachableLocks(cfg: Config, ps: set<Promise>, s: State)
    requires Reachable(cfg, ps, s)
    ensures LockInv(cfg, s)
  {
    var states, steps :| KeepingRun(cfg, ps, states, steps) && states[|steps|] == s;
    LockInvAlways(cfg, states, steps, |steps|);
  }

  /** With all others idle, every owned lock is the thread's own. */
  lemma OnlyOwner(cfg: Config, s: State, others: map<Tid, Pc>, t: Tid, pc: Pc)
    requires LockInv(cfg, s) && Idle(cfg, others) && s.threads == others[t := pc]
    ensures forall l | l in s.owner :: l in Held(cfg, pc)
  {
    forall l | l in s.owner ensures l in Held(cfg, pc) {
      assert l in HeldBy(cfg, s.threads)[s.owner[l]];
    }
  }

  lemma Overwrite<K, V>(m: map<K, V>, k: K, v: V, v': V)
    ensures m[k := v][k := v'] == m[k := v']
  {
  }

  lemma Begin(cfg: Config, ps: set<Promise>, others: map<Tid, Pc>, d: Data, t: Tid, call: Call)
    requires Reached(cfg, ps, others, d) && t !in others
    ensures Reached(cfg, ps, others[t := Entry(call)], d)
  {
    var s :| Reachable(cfg, ps, s) && s.threads == others && s.data == d;
    ReachNext(cfg, ps, s, Spawn(t, call), s.(threads := s.threads[t := Entry(call)]));
  }

  lemma Boot(cfg: Config, ps: set<Promise>, threads: map<Tid, Pc>, d: Data, n: string, g: Manager<Ref>)
    requires Reached(cfg, ps, threads, d) && Booted(g, n) && (NoRestart in ps ==> n !in d.nodes)
    ensures Reached(cfg, ps, threads, d.(nodes := d.nodes[n := g]))
  {
    var s :| Reachable(cfg, ps, s) && s.threads == threads && s.data == d;
    ReachNext(cfg, ps, s, Start(n, g), s.(data := s.data.(nodes := s.data.nodes[n := g])));
  }

  /** No promise is about such a step. */
  predicate Calm(pc: Pc, e: Effect, pc': Pc) {
    && !e.Added? && !e.Removed? && !e.Allocated?
    && (Deleting(pc) ==> (Deleting(pc') && !pc.DeCall?) || e.DeAllocated?)
  }

  lemma CalmKeeps(p: Promise, d: Data, pc: Pc, e: Effect, pc': Pc)
    requires Calm(pc, e, pc')
    ensures KeepsRun(p, d, pc, e, pc')
  {
  }

  lemma WaitersDecideNothing(cfg: Config, pc: Pc, d: Data, pc': Pc)
    requires Wants(cfg, pc).Some?
    ensures Decides(cfg, pc, d, pc')
  {
  }

  lemma TakeKeeps(cfg: Config, ps: set<Promise>, d: Data, pc: Pc)
    requires Wants(cfg, pc).Some?
    ensures forall p | p in ps :: KeepsRun(p, d, pc, Quiet, Taken(cfg, pc))
  {
    forall p | p in ps ensures KeepsRun(p, d, pc, Quiet, Taken(cfg, pc)) {
      CalmKeeps(p, d, pc, Quiet, Taken(cfg, pc));
    }
  }

  lemma ReachRun(cfg: Config, ps: set<Promise>, s: State, t: Tid, e: Effect, pc': Pc)
    requires Reachable(cfg, ps, s) && May(cfg, s, t, e, pc')
    requires forall p | p in ps :: KeepsRun(p, s.data, s.threads[t], e, pc')
    ensures Reached(cfg, ps, s.threads[t := pc'], Apply(cfg, s.data, e))
  {
    assert KeepsAll(ps, s, Run(t, e, pc'));
    ReachNext(cfg, ps, s, Run(t, e, pc'), Do(cfg, s, t, e, pc'));
  }

  /** A thread takes the lock it waits for. */
  lemma Take(cfg: Config, ps: set<Promise>, others: map<Tid, Pc>, d: Data, t: Tid, pc: Pc)
    requires Reached(cfg, ps, others[t := pc], d) && Idle(cfg, others) && Wants(cfg, pc).Some?
    ensures Reached(cfg, ps, others[t := Taken(cfg, pc)], d)
  {
    var s :| Reachable(cfg, ps, s) && s.threads == others[t := pc] && s.data == d;
    ReachableLocks(cfg, ps, s);
    OnlyOwner(cfg, s, others, t, pc);
    Nesting(cfg, pc);
    WaitersDecideNothing(cfg, pc, d, Taken(cfg, pc));
    assert May(cfg, s, t, Quiet, Taken(cfg, pc));
    TakeKeeps(cfg, ps, d, pc);
    ReachRun(cfg, ps, s, t, Quiet, Taken(cfg, pc));
    Overwrite(others, t, pc, Taken(cfg, pc));
  }

  /** A step of a thread that waits for no lock. */
  ghost predicate Can(cfg: Config, d: Data, pc: Pc, e: Effect, pc': Pc) {
    Wants(cfg, pc).None? && Moves(cfg, pc, e, pc') && Decides(cfg, pc, d, pc') && Possible(d, e)
  }

  lemma CanMay(cfg: Config, s: State, t: Tid, e: Effect, pc': Pc)
    requires t in s.threads && Can(cfg, s.data, s.threads[t], e, pc')
    ensures May(cfg, s, t, e, pc')
  {
    StepsTakeNoLock(cfg, s.threads[t], e, pc');
  }

  lemma ActKeeping(cfg: Config, ps: set<Promise>, others: map<Tid, Pc>, d: Data, t: Tid, pc: Pc, e: Effect, pc': Pc)
    requires Reached(cfg, ps, others[t := pc], d) && Can(cfg, d, pc, e, pc')
    requires forall p | p in ps :: KeepsRun(p, d, pc, e, pc')
    ensures Reached(cfg, ps, others[t := pc'], Apply(cfg, d, e))
  {
    var s :| Reachable(cfg, ps, s) && s.threads == others[t := pc] && s.data == d;
    CanMay(cfg, s, t, e, pc');
    ReachRun(cfg, ps, s, t, e, pc');
    Overwrite(others, t, pc, pc');
  }

  lemma Act(cfg: Config, ps: set<Promise>, others: map<Tid, Pc>, d: Data, t: Tid, pc: Pc, e: Effect, pc': Pc)
    requires Reached(cfg, ps, others[t := pc], d) && Can(cfg, d, pc, e, pc') && Calm(pc, e, pc')
    ensures Reached(cfg, ps, others[t := pc'], Apply(cfg, d, e))
  {
    forall p | p in ps ensures KeepsRun(p, d, pc, e, pc') {
      CalmKeeps(p, d, pc, e, pc');
    }
    ActKeeping(cfg, ps, others, d, t, pc, e, pc');
  }

  lemma IdleNext(cfg: Config, others: map<Tid, Pc>, t: Tid, pc: Pc)
    requires Idle(cfg, others) && Held(cfg, pc) == {}
    ensures Idle(cfg, others[t := pc])
  {
  }

  // ----- whole calls

  /** The data after a registration that no listener but the master hears of. */
  ghost function Registered(d: Data, node: NodeInfo, reports: seq<Report>, refs: seq<Ref>): Data
    requires RefsOk(d.master) && |reports| == |refs|
  {
    d.(clients := d.clients[node.nodeID := node],
       master := AddNode(d.master, node.nodeID, reports, refs),
       last := d.last[(node.nodeID, MasterListener) := NodeAdded(MasterListener, node, true)])
  }

  /** The reports are those of the node, which is new to the master if that was promised. */
  ghost predicate AddsRightly(ps: set<Promise>, d: Data, n: string, reports: seq<Report>) {
    WellReported(n, reports) && HonestReports(d, n, reports) && (AddedOnce in ps ==> n !in d.master.byNode)
  }

  lemma RegisterOpens(cfg: Config, ps: set<Promise>, others: map<Tid, Pc>, d: Data, t: Tid, node: NodeInfo)
    requires Reached(cfg, ps, others, d) && Idle(cfg, others) && t !in others
    requires node.nodeID != "" && node.endpoint != "" && !Known(d.clients, node.nodeID, node.endpoint)
    requires cfg.listeners == {MasterListener}
    ensures Reached(cfg, ps, others[t := AddLook(node.nodeID, node.endpoint, {MasterListener})],
                    d.(clients := d.clients[node.nodeID := node]))
  {
    var id, endpoint := node.nodeID, node.endpoint;
    Begin(cfg, ps, others, d, t, RegisterController(id, endpoint));
    Take(cfg, ps, others, d, t, RegKey(id, endpoint));
    Take(cfg, ps, others, d, t, RegEnter(id, endpoint));
    Act(cfg, ps, others, d, t, RegWrite(id, endpoint), PutClient(node), RegNext(id, endpoint, {MasterListener}));
    var d' := d.(clients := d.clients[id := node]);
    Act(cfg, ps, others, d', t, RegNext(id, endpoint, {MasterListener}), Quiet,
        AddLook(id, endpoint, {MasterListener}));
  }

  lemma RegisterLooks(cfg: Config, ps: set<Promise>, others: map<Tid, Pc>, d: Data, t: Tid, node: NodeInfo)
    requires Reached(cfg, ps, others[t := AddLook(node.nodeID, node.endpoint, {MasterListener})], d)
    requires Idle(cfg, others) && node.nodeID in d.clients
    ensures Reached(cfg, ps, others[t := AddList(node.nodeID, node.endpoint, {MasterListener})], d)
  {
    var id, endpoint, todo := node.nodeID, node.endpoint, {MasterListener};
    Take(cfg, ps, others, d, t, AddLook(id, endpoint, todo));
    Act(cfg, ps, others, d, t, AddRead(id, endpoint, todo), Quiet, AddList(id, endpoint, todo));
  }

  lemma RegisterAsks(cfg: Config, ps: set<Promise>, others: map<Tid, Pc>, d: Data, t: Tid, node: NodeInfo,
                     reports: seq<Report>)
    requires Reached(cfg, ps, others[t := AddList(node.nodeID, node.endpoint, {MasterListener})], d)
    requires Idle(cfg, others)
    ensures Reached(cfg, ps, others[t := AddTables(node.nodeID, node.endpoint, {MasterListener}, reports)], d)
  {
    var id, endpoint, todo := node.nodeID, node.endpoint, {MasterListener};
    Act(cfg, ps, others, d, t, AddList(id, endpoint, todo), Quiet, AddLock(id, endpoint, todo, reports));
    Take(cfg, ps, others, d, t, AddLock(id, endpoint, todo, reports));
  }

  lemma AddStep(cfg: Config, ps: set<Promise>, d: Data, node: NodeInfo, reports: seq<Report>, refs: seq<Ref>)
    requires Possible(d, Added(node, reports, refs)) && AddsRightly(ps, d, node.nodeID, reports)
    ensures var pc := AddTables(node.nodeID, node.endpoint, {MasterListener}, reports);
            var pc' := RegNext(node.nodeID, node.endpoint, {});
            && Can(cfg, d, pc, Added(node, reports, refs), pc')
            && (forall p | p in ps :: KeepsRun(p, d, pc, Added(node, reports, refs), pc'))
  {
    assert {MasterListener} - {MasterListener} == {};
  }

  lemma RegisterAdds(cfg: Config, ps: set<Promise>, others: map<Tid, Pc>, d: Data, t: Tid, node: NodeInfo,
                     reports: seq<Report>, refs: seq<Ref>)
    requires Reached(cfg, ps, others[t := AddTables(node.nodeID, node.endpoint, {MasterListener}, reports)], d)
    requires Possible(d, Added(node, reports, refs)) && AddsRightly(ps, d, node.nodeID, reports)
    ensures Reached(cfg, ps, others[t := RegNext(node.nodeID, node.endpoint, {})],
                    Apply(cfg, d, Added(node, reports, refs)))
  {
    var id, endpoint := node.nodeID, node.endpoint;
    AddStep(cfg, ps, d, node, reports, refs);
    ActKeeping(cfg, ps, others, d, t, AddTables(id, endpoint, {MasterListener}, reports), Added(node, reports, refs),
               RegNext(id, endpoint, {}));
  }

  lemma RegisterReturns(cfg: Config, ps: set<Promise>, others: map<Tid, Pc>, d: Data, t: Tid, id: string,
                        endpoint: string)
    requires Reached(cfg, ps, others[t := RegNext(id, endpoint, {})], d) && Idle(cfg, others)
    ensures Reached(cfg, ps, others[t := Done(OK)], d) && Idle(cfg, others[t := Done(OK)])
  {
    Act(cfg, ps, others, d, t, RegNext(id, endpoint, {}), Quiet, RegOut(id, OK));
    Act(cfg, ps, others, d, t, RegOut(id, OK), Quiet, Done(OK));
    IdleNext(cfg, others, t, Done(OK));
  }

  lemma AddsLater(cfg: Config, ps: set<Promise>, d: Data, node: NodeInfo, reports: seq<Report>, refs: seq<Ref>)
    requires Possible(d, Added(node, reports, refs)) && AddsRightly(ps, d, node.nodeID, reports)
    ensures var d' := d.(clients := d.clients[node.nodeID := node]);
            && Possible(d', Added(node, reports, refs)) && AddsRightly(ps, d', node.nodeID, reports)
            && Apply(cfg, d', Added(node, reports, refs)) == Registered(d, node, reports, refs)
  {
  }

  lemma RegisterLocks(cfg: Config, ps: set<Promise>, others: map<Tid, Pc>, d: Data, t: Tid, node: NodeInfo,
                      reports: seq<Report>)
    requires Reached(cfg, ps, others, d) && Idle(cfg, others) && t !in others
    requires node.nodeID != "" && node.endpoint != "" && !Known(d.clients, node.nodeID, node.endpoint)
    requires cfg.listeners == {MasterListener}
    ensures Reached(cfg, ps, others[t := AddTables(node.nodeID, node.endpoint, {MasterListener}, reports)],
                    d.(clients := d.clients[node.nodeID := node]))
  {
    RegisterOpens(cfg, ps, others, d, t, node);
    RegisterLooks(cfg, ps, others, d.(clients := d.clients[node.nodeID := node]), t, node);
    RegisterAsks(cfg, ps, others, d.(clients := d.clients[node.nodeID := node]), t, node, reports);
  }

  lemma RegisterUpTo(cfg: Config, ps: set<Promise>, others: map<Tid, Pc>, d: Data, t: Tid, node: NodeInfo,
                     reports: seq<Report>, refs: seq<Ref>)
    requires Reached(cfg, ps, others, d) && Idle(cfg, others) && t !in others
    requires node.nodeID != "" && node.endpoint != "" && !Known(d.clients, node.nodeID, node.endpoint)
    requires cfg.listeners == {MasterListener}
    requires Possible(d, Added(node, reports, refs)) && AddsRightly(ps, d, node.nodeID, reports)
    ensures Reached(cfg, ps, others[t := RegNext(node.nodeID, node.endpoint, {})], Registered(d, node, reports, refs))
  {
    RegisterLocks(cfg, ps, others, d, t, node, reports);
    AddsLater(cfg, ps, d, node, reports, refs);
    RegisterAdds(cfg, ps, others, d.(clients := d.clients[node.nodeID := node]), t, node, reports, refs);
  }

  lemma Register(cfg: Config, ps: set<Promise>, others: map<Tid, Pc>, d: Data, t: Tid, node: NodeInfo,
                 reports: seq<Report>, refs: seq<Ref>)
    requires Reached(cfg, ps, others, d) && Idle(cfg, others) && t !in others
    requires node.nodeID != "" && node.endpoint != "" && !Known(d.clients, node.nodeID, node.endpoint)
    requires cfg.listeners == {MasterListener}
    requires Possible(d, Added(node, reports, refs)) && AddsRightly(ps, d, node.nodeID, reports)
    ensures var done := others[t := Done(OK)];
            Reached(cfg, ps, done, Registered(d, node, reports, refs)) && Idle(cfg, done)
  {
    RegisterUpTo(cfg, ps, others, d, t, node, reports, refs);
    RegisterReturns(cfg, ps, others, Registered(d, node, reports, refs), t, node.nodeID, node.endpoint);
  }

  lemma CreateLocks(cfg: Config, ps: set<Promise>, others: map<Tid, Pc>, d: Data, t: Tid, r: Request)
    requires Reached(cfg, ps, others, d) && Idle(cfg, others) && t !in others && r.name != ""
    ensures Reached(cfg, ps, others[t := CrFind(r)], d)
  {
    Begin(cfg, ps, others, d, t, CreateVolume(r, true));
    Take(cfg, ps, others, d, t, CrLock(r));
  }

  lemma CreateFinds(cfg: Config, ps: set<Promise>, others: map<Tid, Pc>, d: Data, t: Tid, r: Request, n: string,
                    dev: Ref)
    requires Reached(cfg, ps, others, d) && Idle(cfg, others) && t !in others && r.name != ""
    requires Listed(d.master, n, dev) && dev in d.master.store && Match(cfg.parse, d.master.store[dev], r.params) == OK
    ensures Reached(cfg, ps, others[t := CrLook(r, n, dev)], d)
  {
    CreateLocks(cfg, ps, others, d, t, r);
    FindStep(cfg, d, r, n, dev);
    Act(cfg, ps, others, d, t, CrFind(r), Quiet, CrLook(r, n, dev));
  }

  lemma FindStep(cfg: Config, d: Data, r: Request, n: string, dev: Ref)
    requires Listed(d.master, n, dev) && dev in d.master.store && Match(cfg.parse, d.master.store[dev], r.params) == OK
    ensures Can(cfg, d, CrFind(r), Quiet, CrLook(r, n, dev))
  {
  }

  lemma ConnectStep(cfg: Config, d: Data, r: Request, n: string, dev: Ref)
    requires n in d.clients
    ensures Can(cfg, d, CrRead(r, n, dev), Quiet, CrCall(r, n, dev))
  {
  }

  lemma CreateLooks(cfg: Config, ps: set<Promise>, others: map<Tid, Pc>, d: Data, t: Tid, r: Request, n: string,
                    dev: Ref)
    requires Reached(cfg, ps, others[t := CrLook(r, n, dev)], d) && Idle(cfg, others) && n in d.clients
    ensures Reached(cfg, ps, others[t := CrCall(r, n, dev)], d)
  {
    Take(cfg, ps, others, d, t, CrLook(r, n, dev));
    ConnectStep(cfg, d, r, n, dev);
    Act(cfg, ps, others, d, t, CrRead(r, n, dev), Quiet, CrCall(r, n, dev));
  }

  /** A create that has found its device and is about to call the node. */
  lemma CreateCalls(cfg: Config, ps: set<Promise>, others: map<Tid, Pc>, d: Data, t: Tid, r: Request, n: string,
                    dev: Ref)
    requires Reached(cfg, ps, others, d) && Idle(cfg, others) && t !in others && r.name != ""
    requires Listed(d.master, n, dev) && dev in d.master.store && Match(cfg.parse, d.master.store[dev], r.params) == OK
    requires n in d.clients
    ensures Reached(cfg, ps, others[t := CrCall(r, n, dev)], d)
  {
    CreateFinds(cfg, ps, others, d, t, r, n, dev);
    CreateLooks(cfg, ps, others, d, t, r, n, dev);
  }

  lemma EndStep(cfg: Config, d: Data, code: Code)
    ensures Can(cfg, d, MaOut(code), Quiet, Done(code))
  {
  }

  lemma Ends(cfg: Config, ps: set<Promise>, others: map<Tid, Pc>, d: Data, t: Tid, code: Code)
    requires Reached(cfg, ps, others[t := MaOut(code)], d) && Idle(cfg, others)
    ensures Reached(cfg, ps, others[t := Done(code)], d) && Idle(cfg, others[t := Done(code)])
  {
    EndStep(cfg, d, code);
    Act(cfg, ps, others, d, t, MaOut(code), Quiet, Done(code));
    IdleNext(cfg, others, t, Done(code));
  }

  lemma AcceptStep(cfg: Config, d: Data, r: Request, n: string, dev: Ref)
    requires Possible(d, Allocated(r, n, dev))
    ensures Can(cfg, d, CrCall(r, n, dev), Allocated(r, n, dev), CrCommit(r, n, dev))
    ensures dev in Apply(cfg, d, Allocated(r, n, dev)).master.store
  {
  }

  lemma CommitStep(cfg: Config, d: Data, r: Request, n: string, dev: Ref)
    requires dev in d.master.store
    ensures Can(cfg, d, CrCommit(r, n, dev), Committed(r, n, dev), MaOut(OK))
  {
  }

  lemma CreateAccepted(cfg: Config, ps: set<Promise>, others: map<Tid, Pc>, d: Data, t: Tid, r: Request, n: string,
                       dev: Ref)
    requires Reached(cfg, ps, others[t := CrCall(r, n, dev)], d)
    requires Possible(d, Allocated(r, n, dev)) && (NoLiveName in ps ==> r.name !in d.master.byVolume)
    ensures Reached(cfg, ps, others[t := CrCommit(r, n, dev)], Apply(cfg, d, Allocated(r, n, dev)))
  {
    AcceptStep(cfg, d, r, n, dev);
    ActKeeping(cfg, ps, others, d, t, CrCall(r, n, dev), Allocated(r, n, dev), CrCommit(r, n, dev));
  }

  lemma CreateCommits(cfg: Config, ps: set<Promise>, others: map<Tid, Pc>, d: Data, t: Tid, r: Request, n: string,
                      dev: Ref)
    requires Reached(cfg, ps, others[t := CrCommit(r, n, dev)], d) && Possible(d, Committed(r, n, dev))
    ensures Reached(cfg, ps, others[t := MaOut(OK)], Apply(cfg, d, Committed(r, n, dev)))
  {
    CommitStep(cfg, d, r, n, dev);
    Act(cfg, ps, others, d, t, CrCommit(r, n, dev), Committed(r, n, dev), MaOut(OK));
  }

  lemma CreateSucceeds(cfg: Config, ps: set<Promise>, others: map<Tid, Pc>, d: Data, t: Tid, r: Request, n: string,
                       dev: Ref)
    requires Reached(cfg, ps, others[t := CrCall(r, n, dev)], d) && Idle(cfg, others)
    requires Possible(d, Allocated(r, n, dev)) && (NoLiveName in ps ==> r.name !in d.master.byVolume)
    ensures Reached(cfg, ps, others[t := Done(OK)], AfterCreate(cfg, d, r, n, dev)) && Idle(cfg, others[t := Done(OK)])
  {
    CreateAccepted(cfg, ps, others, d, t, r, n, dev);
    AcceptStep(cfg, d, r, n, dev);
    CreateCommits(cfg, ps, others, Apply(cfg, d, Allocated(r, n, dev)), t, r, n, dev);
    Ends(cfg, ps, others, AfterCreate(cfg, d, r, n, dev), t, OK);
  }

  /** The node accepts, and its reply is lost. */
  lemma CreateLosesReply(cfg: Config, ps: set<Promise>, others: map<Tid, Pc>, d: Data, t: Tid, r: Request, n: string,
                         dev: Ref)
    requires Reached(cfg, ps, others[t := CrCall(r, n, dev)], d) && Idle(cfg, others)
    requires Possible(d, Allocated(r, n, dev)) && (NoLiveName in ps ==> r.name !in d.master.byVolume)
    requires NoLostReply !in ps
    ensures Reached(cfg, ps, others[t := Done(Internal)], Apply(cfg, d, Allocated(r, n, dev)))
    ensures Idle(cfg, others[t := Done(Internal)])
  {
    ActKeeping(cfg, ps, others, d, t, CrCall(r, n, dev), Allocated(r, n, dev), MaOut(Internal));
    Ends(cfg, ps, others, Apply(cfg, d, Allocated(r, n, dev)), t, Internal);
  }

  function AfterRead(m: Master<Ref>, name: string): Pc {
    if name in m.byVolume then DeLock(name, m.byVolume[name]) else Done(OK)
  }

  lemma ReadStep(cfg: Config, d: Data, name: string)
    ensures Can(cfg, d, DeRead(name), Quiet, AfterRead(d.master, name)) && Held(cfg, AfterRead(d.master, name)) == {}
  {
  }

  /** The first, unlocked step of a delete; an unknown name ends it. */
  lemma DeleteReads(cfg: Config, ps: set<Promise>, others: map<Tid, Pc>, d: Data, t: Tid, name: string)
    requires Reached(cfg, ps, others, d) && Idle(cfg, others) && t !in others && name != ""
    ensures Reached(cfg, ps, others[t := AfterRead(d.master, name)], d)
    ensures Idle(cfg, others[t := AfterRead(d.master, name)])
  {
    Begin(cfg, ps, others, d, t, DeleteVolume(name));
    ReadStep(cfg, d, name);
    Act(cfg, ps, others, d, t, DeRead(name), Quiet, AfterRead(d.master, name));
    IdleNext(cfg, others, t, AfterRead(d.master, name));
  }

  lemma DropStep(cfg: Config, d: Data, name: string, dev: Ref, live: bool)
    requires Possible(d, Dropped(name, dev)) && (live <==> name in d.master.byVolume && d.master.byVolume[name] == dev)
    ensures Can(cfg, d, DeTables(name, dev), Dropped(name, dev), DeRoute(name, dev, live))
  {
  }

  lemma DeleteDrops(cfg: Config, ps: set<Promise>, others: map<Tid, Pc>, d: Data, t: Tid, name: string, dev: Ref,
                    live: bool)
    requires Reached(cfg, ps, others[t := DeLock(name, dev)], d) && Idle(cfg, others)
    requires Possible(d, Dropped(name, dev)) && (live <==> name in d.master.byVolume && d.master.byVolume[name] == dev)
    ensures Reached(cfg, ps, others[t := DeRoute(name, dev, live)], Apply(cfg, d, Dropped(name, dev)))
  {
    Take(cfg, ps, others, d, t, DeLock(name, dev));
    DropStep(cfg, d, name, dev, live);
    Act(cfg, ps, others, d, t, DeTables(name, dev), Dropped(name, dev), DeRoute(name, dev, live));
  }

  lemma RouteStep(cfg: Config, d: Data, name: string, dev: Ref, live: bool, n: string)
    requires RefsOk(d.master) && dev in d.master.store && RouteOutcome(d.master, d.master.store[dev].id, Some(n))
    ensures Can(cfg, d, DeRoute(name, dev, live), Quiet, DeLook(name, dev, live, n))
  {
  }

  lemma ReachStep(cfg: Config, d: Data, name: string, dev: Ref, live: bool, n: string)
    requires n in d.clients
    ensures Can(cfg, d, DeReg(name, dev, live, n), Quiet, DeCall(name, dev, live, n))
  {
  }

  lemma DeleteRoutes(cfg: Config, ps: set<Promise>, others: map<Tid, Pc>, d: Data, t: Tid, name: string, dev: Ref,
                     live: bool, n: string)
    requires Reached(cfg, ps, others[t := DeRoute(name, dev, live)], d) && Idle(cfg, others)
    requires RefsOk(d.master) && dev in d.master.store && RouteOutcome(d.master, d.master.store[dev].id, Some(n))
    ensures Reached(cfg, ps, others[t := DeReg(name, dev, live, n)], d)
  {
    RouteStep(cfg, d, name, dev, live, n);
    Act(cfg, ps, others, d, t, DeRoute(name, dev, live), Quiet, DeLook(name, dev, live, n));
    Take(cfg, ps, others, d, t, DeLook(name, dev, live, n));
  }

  lemma DeleteCalls(cfg: Config, ps: set<Promise>, others: map<Tid, Pc>, d: Data, t: Tid, name: string, dev: Ref,
                    live: bool, n: string)
    requires Reached(cfg, ps, others[t := DeRoute(name, dev, live)], d) && Idle(cfg, others)
    requires RefsOk(d.master) && dev in d.master.store && RouteOutcome(d.master, d.master.store[dev].id, Some(n))
    requires n in d.clients
    ensures Reached(cfg, ps, others[t := DeCall(name, dev, live, n)], d)
  {
    DeleteRoutes(cfg, ps, others, d, t, name, dev, live, n);
    ReachStep(cfg, d, name, dev, live, n);
    Act(cfg, ps, others, d, t, DeReg(name, dev, live, n), Quiet, DeCall(name, dev, live, n));
  }

  lemma DeleteSucceeds(cfg: Config, ps: set<Promise>, others: map<Tid, Pc>, d: Data, t: Tid, name: string, dev: Ref,
                       live: bool,
                       n: string)
    requires Reached(cfg, ps, others[t := DeCall(name, dev, live, n)], d) && Idle(cfg, others)
    requires Possible(d, DeAllocated(name, n))
    ensures Reached(cfg, ps, others[t := Done(OK)], Apply(cfg, d, DeAllocated(name, n)))
    ensures Idle(cfg, others[t := Done(OK)])
  {
    Act(cfg, ps, others, d, t, DeCall(name, dev, live, n), DeAllocated(name, n), MaOut(OK));
    Ends(cfg, ps, others, Apply(cfg, d, DeAllocated(name, n)), t, OK);
  }

  /** No promise keeps the call from freeing nothing. */
  ghost predicate Excused(ps: set<Promise>, d: Data, name: string, live: bool, n: string) {
    (DeletesReach in ps ==> !live) && (DeletesArrive in ps ==> !Possible(d, DeAllocated(name, n)))
  }

  lemma FailKeeps(ps: set<Promise>, d: Data, name: string, dev: Ref, live: bool, n: string, code: Code)
    requires Excused(ps, d, name, live, n)
    ensures forall p | p in ps :: KeepsRun(p, d, DeCall(name, dev, live, n), Quiet, MaOut(code))
  {
  }

  /** The node refuses, or the call does not reach it. */
  lemma DeleteFails(cfg: Config, ps: set<Promise>, others: map<Tid, Pc>, d: Data, t: Tid, name: string, dev: Ref,
                    live: bool, n: string, code: Code)
    requires Reached(cfg, ps, others[t := DeCall(name, dev, live, n)], d) && Idle(cfg, others) && code != OK
    requires Excused(ps, d, name, live, n)
    ensures Reached(cfg, ps, others[t := Done(code)], d) && Idle(cfg, others[t := Done(code)])
  {
    FailKeeps(ps, d, name, dev, live, n, code);
    ActKeeping(cfg, ps, others, d, t, DeCall(name, dev, live, n), Quiet, MaOut(code));
    Ends(cfg, ps, others, d, t, code);
  }
}
