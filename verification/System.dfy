/** The whole driver as one state machine: any number of calls in flight on the registry and the
    master controller, and the nodes they talk to. One step of a thread is one critical section, one
    lock acquisition, one remote call or one unlocked access. */
module System {
  import opened Wrappers
  import opened Devices
  import opened Tables
  import opened Registry

  type Tid = nat
  type Ref = nat

  datatype Lock = KeyLock(slot: nat) | MasterMutex | RegistryMutex

  /** hash maps a node id to one of the key locks; key is the driver's topology key. */
  datatype Config = Config(hash: string -> nat, listeners: set<Listener>, parse: Parser, key: string)

  datatype Request = Request(name: string, size: int, params: Params)

  datatype Call =
    | RegisterController(id: string, endpoint: string)
    | UnregisterController(id: string)
    | CreateVolume(request: Request, hasCapabilities: bool)
    | DeleteVolume(name: string)
    | ListOrValidate
    | GetCapacityAt(node: string)
    | GetCapacityAll

  /** Where a call stands, with its local variables. */
  datatype Pc =
    | Done(code: Code)
    // RegisterController
    | RegKey(id: string, endpoint: string)
    | RegEnter(id: string, endpoint: string)
    | RegWrite(id: string, endpoint: string)
    | RegNext(id: string, endpoint: string, todo: set<Listener>)
    | RegFail(id: string)
    | RegUndo(id: string)
    | RegOut(id: string, code: Code)
    // OnNodeAdded of the master, called by RegisterController
    | AddLook(id: string, endpoint: string, todo: set<Listener>)
    | AddRead(id: string, endpoint: string, todo: set<Listener>)
    | AddList(id: string, endpoint: string, todo: set<Listener>)
    | AddLock(id: string, endpoint: string, todo: set<Listener>, reports: seq<Report>)
    | AddTables(id: string, endpoint: string, todo: set<Listener>, reports: seq<Report>)
    // UnregisterController
    | UnKey(id: string)
    | UnEnter(id: string)
    | UnWrite(id: string)
    | UnNext(id: string, info: NodeInfo, todo: set<Listener>)
    // CreateVolume
    | CrLock(r: Request)
    | CrFind(r: Request)
    | CrLook(r: Request, node: string, d: Ref)
    | CrRead(r: Request, node: string, d: Ref)
    | CrCall(r: Request, node: string, d: Ref)
    | CrCommit(r: Request, node: string, d: Ref)
    // DeleteVolume; live is history: the device read before the lock was still the volume's when the lock was taken
    | DeRead(name: string)
    | DeLock(name: string, d: Ref)
    | DeTables(name: string, d: Ref)
    | DeRoute(name: string, d: Ref, live: bool)
    | DeLook(name: string, d: Ref, live: bool, node: string)
    | DeReg(name: string, d: Ref, live: bool, node: string)
    | DeCall(name: string, d: Ref, live: bool, node: string)
    // ListVolumes and ValidateVolumeCapabilities; the end of every call that holds the master mutex
    | MaLock
    | MaOut(code: Code)
    // GetCapacity
    | CapAt(node: string)
    | CapAtRead(node: string)
    | CapAll
    | CapAllRead
    | CapLoop(nodes: set<string>)
    | CapLook(node: string, nodes: set<string>)
    | CapRead(node: string, nodes: set<string>)

  /** What one step does to the shared data. */
  datatype Effect =
    | Quiet
    | PutClient(node: NodeInfo)
    | DropClient(id: string)
    | Answered(l: Listener, node: NodeInfo, ok: bool)               // an OnNodeAdded that changes no table of ours
    | Added(node: NodeInfo, reports: seq<Report>, refs: seq<Ref>)   // the locked part of the master's OnNodeAdded
    | Removed(l: Listener, id: string, node: NodeInfo)              // an OnNodeDeleted
    | Allocated(r: Request, n: string, d: Ref)                      // a node's CreateVolume
    | DeAllocated(name: string, n: string)                          // a node's DeleteVolume
    | Committed(r: Request, n: string, d: Ref)                      // the end of the master's CreateVolume
    | Dropped(name: string, d: Ref)                                 // the deletions of the master's DeleteVolume

  /** Everything the threads share. Two parts are history only: last is the last callback made to a
      listener about a node; granted gives, by device id, the volumes nodes have accepted and not
      given up since, with the parameters they were approved with. */
  datatype Data = Data(
    master: Master<Ref>,
    nodes: map<string, Manager<Ref>>,
    clients: map<string, NodeInfo>,
    last: map<(string, Listener), Event>,
    granted: map<string, map<string, Volume>>)

  datatype State = State(data: Data, owner: map<Lock, Tid>, threads: map<Tid, Pc>)

  // ----- one thread

  function Entry(call: Call): Pc {
    match call
    case RegisterController(id, endpoint) => if id == "" || endpoint == "" then Done(InvalidArgument)
        else RegKey(id, endpoint)
    case UnregisterController(id) => if id == "" then Done(InvalidArgument) else UnKey(id)
    case CreateVolume(r, hasCapabilities) => if !hasCapabilities || r.name == "" then Done(InvalidArgument)
        else CrLock(r)
    case DeleteVolume(name) => if name == "" then Done(InvalidArgument) else DeRead(name)
    case ListOrValidate => MaLock
    case GetCapacityAt(n) => CapAt(n)
    case GetCapacityAll => CapAll
  }

  /** The node whose key lock the thread holds. */
  function KeyOf(pc: Pc): Option<string> {
    if pc.RegEnter? || pc.RegWrite? || pc.RegNext? || pc.RegFail? || pc.RegUndo? || pc.RegOut?
       || pc.AddLook? || pc.AddRead? || pc.AddList? || pc.AddLock? || pc.AddTables?
       || pc.UnEnter? || pc.UnWrite? || pc.UnNext?
    then Some(pc.id) else None
  }

  predicate HoldsMaster(pc: Pc) {
    || pc.AddTables?
    || pc.CrFind? || pc.CrLook? || pc.CrRead? || pc.CrCall? || pc.CrCommit?
    || pc.DeTables? || pc.DeRoute? || pc.DeLook? || pc.DeReg? || pc.DeCall?
    || pc.MaOut?
  }

  predicate HoldsRegistry(pc: Pc) {
    pc.RegWrite? || pc.RegUndo? || pc.AddRead? || pc.UnWrite? || pc.CrRead? || pc.DeReg? || pc.CapAtRead?
        || pc.CapAllRead? || pc.CapRead?
  }

  function Held(cfg: Config, pc: Pc): set<Lock> {
    (if KeyOf(pc).Some? then {KeyLock(cfg.hash(KeyOf(pc).value))} else {})
    + (if HoldsMaster(pc) then {MasterMutex} else {})
    + (if HoldsRegistry(pc) then {RegistryMutex} else {})
  }

  /** The lock a thread is about to take. */
  function Wants(cfg: Config, pc: Pc): Option<Lock> {
    match pc
    case RegKey(id, _) => Some(KeyLock(cfg.hash(id)))
    case UnKey(id) => Some(KeyLock(cfg.hash(id)))
    case RegEnter(_, _) => Some(RegistryMutex)
    case RegFail(_) => Some(RegistryMutex)
    case AddLook(_, _, _) => Some(RegistryMutex)
    case UnEnter(_) => Some(RegistryMutex)
    case CrLook(_, _, _) => Some(RegistryMutex)
    case DeLook(_, _, _, _) => Some(RegistryMutex)
    case CapAt(_) => Some(RegistryMutex)
    case CapAll => Some(RegistryMutex)
    case CapLook(_, _) => Some(RegistryMutex)
    case AddLock(_, _, _, _) => Some(MasterMutex)
    case CrLock(_) => Some(MasterMutex)
    case DeLock(_, _) => Some(MasterMutex)
    case MaLock => Some(MasterMutex)
    case _ => None
  }

  /** Where taking that lock leads. */
  function Taken(cfg: Config, pc: Pc): Pc
    requires Wants(cfg, pc).Some?
  {
    match pc
    case RegKey(id, endpoint) => RegEnter(id, endpoint)
    case UnKey(id) => UnEnter(id)
    case RegEnter(id, endpoint) => RegWrite(id, endpoint)
    case RegFail(id) => RegUndo(id)
    case AddLook(id, endpoint, todo) => AddRead(id, endpoint, todo)
    case UnEnter(id) => UnWrite(id)
    case CrLook(r, n, d) => CrRead(r, n, d)
    case DeLook(name, d, live, n) => DeReg(name, d, live, n)
    case CapAt(n) => CapAtRead(n)
    case CapAll => CapAllRead
    case CapLook(n, nodes) => CapRead(n, nodes)
    case AddLock(id, endpoint, todo, reports) => AddTables(id, endpoint, todo, reports)
    case CrLock(r) => CrFind(r)
    case DeLock(name, d) => DeTables(name, d)
    case MaLock => MaOut(OK)
  }

  /** The control flow of RegisterController, with the master's OnNodeAdded inside, and of
      UnregisterController: from pc, with effect e, to pc'. */
  ghost predicate RegistryMoves(cfg: Config, pc: Pc, e: Effect, pc': Pc) {
    match pc
    case RegWrite(id, endpoint) =>
      && e == PutClient(NodeInfo(id, endpoint))
      && (pc' == RegNext(id, endpoint, {}) || pc' == RegNext(id, endpoint, cfg.listeners))
    case RegNext(id, endpoint, todo) =>
      if todo == {} then e == Quiet && pc' == RegOut(id, OK)
      else
        || (e == Quiet && MasterListener in todo && pc' == AddLook(id, endpoint, todo))
        || (&& e.Answered? && e.l in todo && e.l != MasterListener && e.node == NodeInfo(id, endpoint)
            && pc' == if e.ok then RegNext(id, endpoint, todo - {e.l}) else RegFail(id))
    case AddRead(id, endpoint, todo) =>
      || (e == Quiet && pc' == AddList(id, endpoint, todo))
      || (e == Answered(MasterListener, NodeInfo(id, endpoint), false) && pc' == RegFail(id))
    case AddList(id, endpoint, todo) =>
      || (e == Quiet && pc'.AddLock? && pc' == AddLock(id, endpoint, todo, pc'.reports))
      || (e == Answered(MasterListener, NodeInfo(id, endpoint), false) && pc' == RegFail(id))
    case AddTables(id, endpoint, todo, reports) =>
      && e.Added? && e.node == NodeInfo(id, endpoint) && e.reports == reports
      && pc' == RegNext(id, endpoint, todo - {MasterListener})
    case RegUndo(id) => e == DropClient(id) && pc' == RegOut(id, Unknown)
    case RegOut(_, code) => e == Quiet && pc' == Done(code)
    case UnWrite(id) => e == DropClient(id) && pc'.UnNext? && pc'.id == id
        && (pc'.todo == {} || pc'.todo == cfg.listeners)
    case UnNext(id, info, todo) =>
      if todo == {} then e == Quiet && pc' == RegOut(id, OK)
      else e.Removed? && e.l in todo && e.id == id && e.node == info && pc' == UnNext(id, info, todo - {e.l})
    case _ => false
  }

  /** The control flow of CreateVolume, DeleteVolume and the end of every call under the master
      mutex. A remote call may fail before it has any effect (Quiet), or have its effect and lose the
      reply. */
  ghost predicate VolumeMoves(cfg: Config, pc: Pc, e: Effect, pc': Pc) {
    match pc
    case CrFind(r) => e == Quiet
        && ((pc'.CrLook? && pc'.r == r) || pc' == MaOut(NotFound) || pc' == MaOut(ResourceExhausted))
    case CrRead(r, n, d) => e == Quiet && (pc' == CrCall(r, n, d) || pc' == MaOut(Internal))
    case CrCall(r, n, d) =>
      || (e == Quiet && pc' == MaOut(Internal))
      || (e == Allocated(r, n, d) && (pc' == CrCommit(r, n, d) || pc' == MaOut(Internal)))
    case CrCommit(r, n, d) => e == Committed(r, n, d) && pc' == MaOut(OK)
    case MaOut(code) => e == Quiet && pc' == Done(code)
    case DeRead(name) => e == Quiet && ((pc'.DeLock? && pc'.name == name) || pc' == Done(OK))
    case DeTables(name, d) => e == Dropped(name, d) && pc'.DeRoute? && pc' == DeRoute(name, d, pc'.live)
    case DeRoute(name, d, live) => e == Quiet
        && ((pc'.DeLook? && pc' == DeLook(name, d, live, pc'.node)) || pc' == MaOut(Internal))
    case DeReg(name, d, live, n) => e == Quiet && (pc' == DeCall(name, d, live, n) || pc' == MaOut(Internal))
    case DeCall(name, d, live, n) =>
      || (e == Quiet && pc'.MaOut? && pc'.code != OK)
      || (e == DeAllocated(name, n) && pc'.MaOut?)
    case _ => false
  }

  /** The control flow of GetCapacity: one look into the registry for every node asked. */
  ghost predicate CapacityMoves(pc: Pc, e: Effect, pc': Pc) {
    match pc
    case CapAtRead(n) => e == Quiet && (pc' == CapLoop({n}) || pc' == Done(Internal))
    case CapAllRead => e == Quiet && pc'.CapLoop?
    case CapLoop(nodes) =>
      && e == Quiet
      && if nodes == {} then pc' == Done(OK)
         else pc'.CapLook? && pc'.node in nodes && pc'.nodes == nodes - {pc'.node}
    case CapRead(_, nodes) => e == Quiet && pc' == CapLoop(nodes)
    case _ => false
  }

  /** A thread either takes the lock it waits for, or does what its call does next. */
  ghost predicate Moves(cfg: Config, pc: Pc, e: Effect, pc': Pc) {
    if Wants(cfg, pc).Some? then e == Quiet && pc' == Taken(cfg, pc)
    else if KeyOf(pc).Some? then RegistryMoves(cfg, pc, e, pc')
    else if HoldsMaster(pc) || pc.DeRead? then VolumeMoves(cfg, pc, e, pc')
    else CapacityMoves(pc, e, pc')
  }

  ghost predicate NoMatch(cfg: Config, master: Master<Ref>, params: Params) {
    forall n, k | n in master.byNode && 0 <= k < |master.byNode[n]| ::
      Verdict(cfg.parse, master, params, master.byNode[n][k]) != OK
  }

  /** Where the data decides between the ways out of pc. */
  ghost predicate Decides(cfg: Config, pc: Pc, d: Data, pc': Pc) {
    match pc
    case RegWrite(id, endpoint) => pc'.RegNext? && pc'.todo == if Known(d.clients, id, endpoint) then {}
        else cfg.listeners
    case AddRead(id, _, _) => pc'.AddList? <==> id in d.clients
    case UnWrite(id) => pc'.UnNext? && if id in d.clients then pc'.info == d.clients[id] && pc'.todo == cfg.listeners
        else pc'.todo == {}
    case CrFind(r) =>
      if pc'.CrLook? then
        && Listed(d.master, pc'.node, pc'.d) && pc'.d in d.master.store
        && Match(cfg.parse, d.master.store[pc'.d], r.params) == OK
      else NoMatch(cfg, d.master, r.params)
    case CrRead(_, n, _) => pc'.CrCall? <==> n in d.clients
    case DeRead(name) => if pc'.DeLock? then name in d.master.byVolume && pc'.d == d.master.byVolume[name]
        else name !in d.master.byVolume
    case DeTables(name, dev) => pc'.DeRoute?
        && (pc'.live <==> name in d.master.byVolume && d.master.byVolume[name] == dev)
    case DeRoute(_, dev, _) =>
      && RefsOk(d.master) && dev in d.master.store
      && RouteOutcome(d.master, d.master.store[dev].id, if pc'.DeLook? then Some(pc'.node) else None)
    case DeReg(_, _, _, n) => pc'.DeCall? <==> n in d.clients
    case CapAtRead(n) => pc'.CapLoop? <==> n in d.clients
    case CapAllRead => pc'.CapLoop? && pc'.nodes == d.clients.Keys
    case _ => true
  }

  // ----- what one step does to the shared data

  function VolumeOf(cfg: Config, master: Master<Ref>, r: Request, n: string, d: Ref): Volume
    requires d in master.store
  {
    NewVolume(master, cfg.key, r.name, r.size, r.params, n, d)
  }

  function Grants(granted: map<string, map<string, Volume>>, id: string): map<string, Volume> {
    if id in granted then granted[id] else map[]
  }

  /** The effect can take place: in particular the node called exists and does not refuse. */
  ghost predicate Possible(d: Data, e: Effect) {
    match e
    case Added(_, reports, refs) => |reports| == |refs| && RefsOk(d.master) && FreshRefs(d.master, refs)
    case Allocated(r, n, dev) =>
      && dev in d.master.store && n in d.nodes && ManagerRefsOk(d.nodes[n])
      && Allocate(d.nodes[n], d.master.store[dev].id, r.name).Some?
    case DeAllocated(name, n) => n in d.nodes && ManagerRefsOk(d.nodes[n]) && DeAllocate(d.nodes[n], name).Some?
    case Committed(_, _, dev) => dev in d.master.store
    case Dropped(_, dev) => dev in d.master.store
    case _ => true
  }

  ghost function Apply(cfg: Config, d: Data, e: Effect): Data
    requires Possible(d, e)
  {
    match e
    case Quiet => d
    case PutClient(node) => d.(clients := d.clients[node.nodeID := node])
    case DropClient(id) => d.(clients := d.clients - {id})
    case Answered(l, node, ok) => d.(last := d.last[(node.nodeID, l) := NodeAdded(l, node, ok)])
    case Added(node, reports, refs) =>
      d.(master := AddNode(d.master, node.nodeID, reports, refs),
         last := d.last[(node.nodeID, MasterListener) := NodeAdded(MasterListener, node, true)])
    case Removed(l, id, node) =>
      d.(master := if l == MasterListener then RemoveNode(d.master, id) else d.master,
         last := d.last[(id, l) := NodeDeleted(l, node)])
    case Allocated(r, n, dev) =>
      var id := d.master.store[dev].id;
      d.(nodes := d.nodes[n := Allocate(d.nodes[n], id, r.name).value],
         granted := d.granted[id := Grants(d.granted, id)[r.name := VolumeOf(cfg, d.master, r, n, dev)]])
    case DeAllocated(name, n) =>
      var id := d.nodes[n].store[d.nodes[n].byVolume[name]].id;
      d.(nodes := d.nodes[n := DeAllocate(d.nodes[n], name).value],
         granted := d.granted[id := Grants(d.granted, id) - {name}])
    case Committed(r, n, dev) => d.(master := SetVolume(d.master, dev, r.name, VolumeOf(cfg, d.master, r, n, dev)))
    case Dropped(name, dev) => d.(master := DropVolume(d.master, dev, name))
  }

  // ----- the whole system

  datatype Step = Spawn(t: Tid, call: Call) | Run(t: Tid, e: Effect, to: Pc) | Start(node: string,
                        manager: Manager<Ref>)

  function Reown(owner: map<Lock, Tid>, t: Tid, before: set<Lock>, after: set<Lock>): map<Lock, Tid> {
    (owner - (before - after)) + (map l | l in after - before :: t)
  }

  /** A thread may take a step that its control flow, the data and the locks allow. */
  ghost predicate May(cfg: Config, s: State, t: Tid, e: Effect, pc': Pc) {
    && t in s.threads
    && var pc := s.threads[t];
    && Moves(cfg, pc, e, pc') && Decides(cfg, pc, s.data, pc') && Possible(s.data, e)
    && (Held(cfg, pc') - Held(cfg, pc)) !! s.owner.Keys
  }

  ghost function Do(cfg: Config, s: State, t: Tid, e: Effect, pc': Pc): State
    requires May(cfg, s, t, e, pc')
  {
    State(Apply(cfg, s.data, e), Reown(s.owner, t, Held(cfg, s.threads[t]), Held(cfg, pc')), s.threads[t := pc'])
  }

  ghost predicate Next(cfg: Config, s: State, step: Step, s': State) {
    match step
    case Spawn(t, call) => t !in s.threads && s' == s.(threads := s.threads[t := Entry(call)])
    case Run(t, e, pc') => May(cfg, s, t, e, pc') && s' == Do(cfg, s, t, e, pc')
    case Start(n, g) => Booted(g, n) && s' == s.(data := s.data.(nodes := s.data.nodes[n := g]))
  }

  const INIT := State(Data(Master(map[], map[], map[], map[]), map[], map[], map[], map[]), map[], map[])

  /** A run: a sequence of states, each reached from the one before by the labelled step. */
  ghost predicate IsRun(cfg: Config, states: seq<State>, steps: seq<Step>) {
    && |states| == |steps| + 1
    && states[0] == INIT
    && forall i | 0 <= i < |steps| :: Next(cfg, states[i], steps[i], states[i + 1])
  }

  /** The thread has no effect on any table, and calls no node, from step i up to step j. */
  ghost predicate QuietFrom(steps: seq<Step>, t: Tid, i: nat, j: nat)
    requires j <= |steps|
  {
    forall k | i <= k < j && steps[k].Run? && steps[k].t == t :: steps[k].e == Quiet
  }

  /** A finished call takes no step. */
  lemma DoneStays(cfg: Config, code: Code, e: Effect, pc': Pc)
    ensures !Moves(cfg, Done(code), e, pc')
  {
  }

  // ----- the step that stands for findDevice

  function SearchEnds(r: Request, found: FindResult<Ref>): Pc {
    match found
    case Found(n, dev) => CrLook(r, n, dev)
    case Missing(code) => MaOut(code)
  }

  lemma NothingMatches(cfg: Config, m: Master<Ref>, params: Params)
    requires RefsOk(m) && NodesWith(cfg.parse, m, params, OK) == {}
    ensures NoMatch(cfg, m, params)
  {
    forall n, k | n in m.byNode && 0 <= k < |m.byNode[n]| ensures Verdict(cfg.parse, m, params, m.byNode[n][k]) != OK {
      if Verdict(cfg.parse, m, params, m.byNode[n][k]) == OK {
        ListedMatch(cfg.parse, m, params, n, m.byNode[n][k]);
      }
    }
  }

  lemma SearchMoves(cfg: Config, r: Request, found: FindResult<Ref>)
    requires found.Missing? ==> found.code == NotFound || found.code == ResourceExhausted
    ensures Moves(cfg, CrFind(r), Quiet, SearchEnds(r, found))
  {
  }

  lemma FoundDecides(cfg: Config, r: Request, d: Data, n: string, dev: Ref)
    requires Listed(d.master, n, dev) && dev in d.master.store && Match(cfg.parse, d.master.store[dev], r.params) == OK
    ensures Decides(cfg, CrFind(r), d, CrLook(r, n, dev))
  {
  }

  lemma MissingDecides(cfg: Config, r: Request, d: Data, code: Code)
    requires NoMatch(cfg, d.master, r.params)
    ensures Decides(cfg, CrFind(r), d, MaOut(code))
  {
  }

  /** Whatever findDevice may answer, for any topology and any iteration order, is a step of CrFind. */
  lemma SearchAllowed(cfg: Config, r: Request, requested: seq<string>, d: Data, found: FindResult<Ref>)
    requires RefsOk(d.master) && FindOutcome(cfg.parse, d.master, r.params, requested, found)
    ensures Moves(cfg, CrFind(r), Quiet, SearchEnds(r, found)) && Decides(cfg, CrFind(r), d, SearchEnds(r, found))
  {
    FindSoundComplete(cfg.parse, d.master, r.params, requested, found);
    SearchMoves(cfg, r, found);
    match found
    case Found(n, dev) => FoundDecides(cfg, r, d, n, dev);
    case Missing(code) =>
      NothingMatches(cfg, d.master, r.params);
      MissingDecides(cfg, r, d, code);
  }
}
