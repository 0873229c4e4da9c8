/** What matters of a state when all requests are alike and take a whole device: names only. */
module Views {
  import opened Wrappers
  import opened Decimal
  import opened Devices
  import opened Tables
  import opened Registry
  import opened System
  import opened Ownership
  import opened Replicas
  import opened Reliability
  import opened EndToEnd
  import opened Reach

  // ----- the setting

  /** The only quantity that can be read is "1". */
  function ReadOne(s: string): Option<Machine.Int64> {
    if s == "1" then Some(1) else None
  }

  function AnySlot(id: string): nat {
    0
  }

  const CFG := Config(AnySlot, {MasterListener}, ReadOne, "node")

  /** What each GPU has, and what each request asks for: all of it. */
  const WHOLE: Params := map[DEVICE_TYPE := GPU, VENDOR := "v", MEMORY := "1", MILLICORES := "1"]

  function Ask(name: string): Request {
    Request(name, 100, WHOLE)
  }

  lemma WholeMatches(d: Device)
    requires d.params == WHOLE && d.volumes == map[]
    ensures Match(CFG.parse, d, WHOLE) == OK
  {
    EmptyDeviceMatches(CFG.parse, d, WHOLE);
  }

  // ----- views

  /** Device k of node n. */
  type Slot = (string, nat)

  function IdOf(s: Slot): string {
    DeviceId(s.0, s.1)
  }

  lemma IdsDiffer(s: Slot, s': Slot)
    requires s != s'
    ensures IdOf(s) != IdOf(s')
  {
    if IdOf(s) == IdOf(s') {
      DeviceIdInjective(s.0, s.1, s'.0, s'.1);
    }
  }

  datatype View = View(
    endpoints: map<string, string>,           // the registered nodes, which are those the master lists
    objects: set<Ref>,                        // all devices the master ever created
    index: map<string, Ref>,                  // the master's index of names
    seats: map<Ref, Slot>,                    // the devices it lists, and what they stand for
    counted: map<Ref, set<string>>,           // the names it has on them
    held: map<Slot, set<string>>,             // the names granted on the nodes' devices, and bound there
    bound: map<string, map<string, nat>>)     // each node's own index of names

  ghost predicate SeatAs(m: Master<Ref>, r: Ref, s: Slot, names: set<string>) {
    && Listed(m, s.0, r) && r in m.store
    && m.store[r].id == IdOf(s) && m.store[r].params == WHOLE && m.store[r].volumes.Keys == names
  }

  ghost predicate SeatsAs(m: Master<Ref>, seats: map<Ref, Slot>, counted: map<Ref, set<string>>) {
    counted.Keys == seats.Keys && forall r | r in seats :: SeatAs(m, r, seats[r], counted[r])
  }

  ghost predicate MasterAs(m: Master<Ref>, w: View) {
    && TablesInv(m) && m.byNode.Keys == w.endpoints.Keys && m.store.Keys == w.objects && m.byVolume == w.index
    && SeatsAs(m, w.seats, w.counted)
  }

  /** The names of the volumes, each of which takes 1. */
  ghost predicate Ones(volumes: map<string, Volume>, names: set<string>) {
    volumes.Keys == names && forall v | v in volumes :: Amount(CFG.parse, volumes[v], MEMORY) == 1
  }

  lemma {:induction false} OnesSum(volumes: map<string, Volume>, names: set<string>)
    requires Ones(volumes, names)
    ensures Used(CFG.parse, volumes, MEMORY) == |names|
    decreases |names|
  {
    if names != {} {
      var k :| k in names;
      UsedPick(CFG.parse, volumes, MEMORY, k);
      OnesSum(volumes - {k}, names - {k});
    }
  }

  ghost predicate HeldAs(g: Manager<Ref>, granted: map<string, map<string, Volume>>, id: string, names: set<string>) {
    Carries(g, id, WHOLE, names) && Ones(Grants(granted, id), names)
  }

  ghost predicate AllHeld(g: Manager<Ref>, granted: map<string, map<string, Volume>>, n: string,
                          held: map<Slot, set<string>>) {
    forall s | s in held && s.0 == n :: HeldAs(g, granted, IdOf(s), held[s])
  }

  ghost predicate BoundAs(g: Manager<Ref>, n: string, bound: map<string, nat>) {
    && g.byVolume.Keys == bound.Keys
    && forall v | v in bound :: IdOf((n, bound[v])) in g.byID && g.byVolume[v] == g.byID[IdOf((n, bound[v]))]
  }

  /** The node has exactly these devices. */
  ghost predicate HasSlots(byID: map<string, Ref>, n: string, slots: set<Slot>) {
    forall i | i in byID :: exists s :: s in slots && s.0 == n && i == IdOf(s)
  }

  ghost predicate NodeAs(g: Manager<Ref>, granted: map<string, map<string, Volume>>, n: string,
                         held: map<Slot, set<string>>, bound: map<string, nat>) {
    NodeOk(g, n) && HasSlots(g.byID, n, held.Keys) && BoundAs(g, n, bound) && AllHeld(g, granted, n, held)
  }

  ghost predicate NodesAs(nodes: map<string, Manager<Ref>>, granted: map<string, map<string, Volume>>,
                          held: map<Slot, set<string>>, bound: map<string, map<string, nat>>) {
    nodes.Keys == bound.Keys && forall n | n in bound :: NodeAs(nodes[n], granted, n, held, bound[n])
  }

  ghost predicate ClientsAs(clients: map<string, NodeInfo>, endpoints: map<string, string>) {
    clients.Keys == endpoints.Keys && forall n | n in endpoints :: clients[n] == NodeInfo(n, endpoints[n])
  }

  /** The parts of the view fit together. */
  predicate Proper(w: View) {
    && (forall r | r in w.seats :: w.seats[r] in w.held && w.seats[r].0 in w.endpoints)
    && (forall s | s in w.held :: s.0 in w.bound)
    && (forall n, v | n in w.bound && v in w.bound[n] :: (n, w.bound[n][v]) in w.held)
  }

  ghost predicate Shows(d: Data, w: View) {
    Proper(w) && ClientsAs(d.clients, w.endpoints) && MasterAs(d.master, w)
        && NodesAs(d.nodes, d.granted, w.held, w.bound)
  }

  // ----- a node accepts a volume

  predicate Seated(w: View, r: Ref) {
    r in w.seats && r in w.counted && w.seats[r] in w.held && w.seats[r].0 in w.bound
  }

  function Accept(w: View, r: Ref, name: string): View
    requires Seated(w, r)
  {
    var s := w.seats[r];
    w.(held := w.held[s := w.held[s] + {name}], bound := w.bound[s.0 := w.bound[s.0][name := s.1]])
  }

  lemma TakesOne(m: Master<Ref>, name: string, r: Ref, n: string)
    requires r in m.store
    ensures Amount(CFG.parse, VolumeOf(CFG, m, Ask(name), n, r), MEMORY) == 1
  {
  }

  lemma AcceptBound(g: Manager<Ref>, n: string, k: nat, bound: map<string, nat>, name: string)
    requires NodeOk(g, n) && BoundAs(g, n, bound) && Allocate(g, IdOf((n, k)), name).Some?
    ensures BoundAs(Allocate(g, IdOf((n, k)), name).value, n, bound[name := k])
  {
  }

  lemma OnesPut(granted: map<string, map<string, Volume>>, s: Slot, volumes: map<string, Volume>, other: Slot,
                names: set<string>, names': set<string>)
    requires Ones(Grants(granted, IdOf(other)), names) && (other == s ==> Ones(volumes, names'))
    ensures Ones(Grants(granted[IdOf(s) := volumes], IdOf(other)), if other == s then names' else names)
    ensures other == s <==> IdOf(other) == IdOf(s)
  {
    if other != s {
      IdsDiffer(s, other);
    }
  }

  lemma AcceptOnes(granted: map<string, map<string, Volume>>, s: Slot, name: string, v: Volume, other: Slot,
                   names: set<string>)
    requires Ones(Grants(granted, IdOf(other)), names) && Amount(CFG.parse, v, MEMORY) == 1
    ensures var granted' := granted[IdOf(s) := Grants(granted, IdOf(s))[name := v]];
            Ones(Grants(granted', IdOf(other)), if other == s then names + {name} else names)
    ensures other == s <==> IdOf(other) == IdOf(s)
  {
    OnesPut(granted, s, Grants(granted, IdOf(s))[name := v], other, names, names + {name});
  }

  lemma AcceptHeld(g: Manager<Ref>, granted: map<string, map<string, Volume>>, s: Slot, name: string, v: Volume,
                   other: Slot, names: set<string>)
    requires NodeOk(g, s.0) && Allocate(g, IdOf(s), name).Some? && HeldAs(g, granted, IdOf(other), names)
    requires Amount(CFG.parse, v, MEMORY) == 1
    ensures var granted' := granted[IdOf(s) := Grants(granted, IdOf(s))[name := v]];
            HeldAs(Allocate(g, IdOf(s), name).value, granted', IdOf(other), if other == s then names + {name}
                else names)
  {
    AllocateCarries(g, s.0, IdOf(s), name, IdOf(other), WHOLE, names);
    AcceptOnes(granted, s, name, v, other, names);
  }

  lemma NodePut(g: Manager<Ref>, g': Manager<Ref>, granted: map<string, map<string, Volume>>, s: Slot,
                held: map<Slot, set<string>>, names: set<string>, bound: map<string, nat>)
    requires NodeOk(g', s.0) && HasSlots(g.byID, s.0, held.Keys) && BoundAs(g', s.0, bound) && g'.byID == g.byID
    requires s in held
    requires forall o | o in held && o.0 == s.0 :: HeldAs(g', granted, IdOf(o), if o == s then names else held[o])
    ensures NodeAs(g', granted, s.0, held[s := names], bound)
  {
    assert held[s := names].Keys == held.Keys;
  }

  /** The node that accepts. */
  lemma AcceptNode(g: Manager<Ref>, granted: map<string, map<string, Volume>>, s: Slot, name: string, v: Volume,
                   held: map<Slot, set<string>>, bound: map<string, nat>)
    requires NodeAs(g, granted, s.0, held, bound) && s in held && Allocate(g, IdOf(s), name).Some?
    requires Amount(CFG.parse, v, MEMORY) == 1
    ensures NodeAs(Allocate(g, IdOf(s), name).value, granted[IdOf(s) := Grants(granted, IdOf(s))[name := v]], s.0,
                   held[s := held[s] + {name}], bound[name := s.1])
  {
    var g', granted' := Allocate(g, IdOf(s), name).value, granted[IdOf(s) := Grants(granted, IdOf(s))[name := v]];
    AllocateKeepsNode(g, s.0, IdOf(s), name);
    AcceptBound(g, s.0, s.1, bound, name);
    AllocateByID(g, IdOf(s), name);
    forall o | o in held && o.0 == s.0
      ensures HeldAs(g', granted', IdOf(o), if o == s then held[o] + {name} else held[o])
    {
      AcceptHeld(g, granted, s, name, v, o, held[o]);
    }
    NodePut(g, g', granted', s, held, held[s] + {name}, bound[name := s.1]);
  }

  lemma AllocateByID(g: Manager<Ref>, id: string, name: string)
    requires ManagerRefsOk(g) && Allocate(g, id, name).Some?
    ensures Allocate(g, id, name).value.byID == g.byID
  {
  }

  /** Any other node. */
  lemma OtherNode(g: Manager<Ref>, granted: map<string, map<string, Volume>>, n: string, held: map<Slot, set<string>>,
                  bound: map<string, nat>, s: Slot, volumes: map<string, Volume>, names: set<string>)
    requires NodeAs(g, granted, n, held, bound) && n != s.0 && s in held
    ensures NodeAs(g, granted[IdOf(s) := volumes], n, held[s := names], bound)
  {
    assert held[s := names].Keys == held.Keys;
    forall o | o in held && o.0 == n
      ensures HeldAs(g, granted[IdOf(s) := volumes], IdOf(o), held[s := names][o])
    {
      IdsDiffer(o, s);
    }
  }

  /** One node changes, and what is granted on one of its devices. */
  lemma NodesPut(nodes: map<string, Manager<Ref>>, granted: map<string, map<string, Volume>>,
                 held: map<Slot, set<string>>, bound: map<string, map<string, nat>>, g: Manager<Ref>, s: Slot,
                 volumes: map<string, Volume>, names: set<string>, bound': map<string, nat>)
    requires NodesAs(nodes, granted, held, bound) && s in held && s.0 in bound
    requires NodeAs(g, granted[IdOf(s) := volumes], s.0, held[s := names], bound')
    ensures NodesAs(nodes[s.0 := g], granted[IdOf(s) := volumes], held[s := names], bound[s.0 := bound'])
  {
    var granted', held' := granted[IdOf(s) := volumes], held[s := names];
    forall n | n in bound ensures NodeAs(if n == s.0 then g else nodes[n], granted', n, held',
                                         if n == s.0 then bound' else bound[n])
    {
      if n != s.0 {
        OtherNode(nodes[n], granted, n, held, bound[n], s, volumes, names);
      }
    }
    NodesJoin(nodes, granted', held', bound, s.0, g, bound');
  }

  lemma NodesJoin(nodes: map<string, Manager<Ref>>, granted: map<string, map<string, Volume>>,
                  held: map<Slot, set<string>>, bound: map<string, map<string, nat>>, s: string, g: Manager<Ref>,
                  bound': map<string, nat>)
    requires nodes.Keys == bound.Keys && s in bound
    requires forall n | n in bound ::
               NodeAs(if n == s then g else nodes[n], granted, n, held, if n == s then bound' else bound[n])
    ensures NodesAs(nodes[s := g], granted, held, bound[s := bound'])
  {
  }

  lemma AcceptNodes(nodes: map<string, Manager<Ref>>, granted: map<string, map<string, Volume>>,
                    held: map<Slot, set<string>>, bound: map<string, map<string, nat>>, s: Slot, name: string,
                    v: Volume)
    requires NodesAs(nodes, granted, held, bound) && s in held && s.0 in bound
    requires Amount(CFG.parse, v, MEMORY) == 1
    requires ManagerRefsOk(nodes[s.0]) && Allocate(nodes[s.0], IdOf(s), name).Some?
    ensures var bound': map<string, nat> := bound[s.0][name := s.1];
            NodesAs(nodes[s.0 := Allocate(nodes[s.0], IdOf(s), name).value],
                    granted[IdOf(s) := Grants(granted, IdOf(s))[name := v]], held[s := held[s] + {name}],
                    bound[s.0 := bound'])
  {
    AcceptNode(nodes[s.0], granted, s, name, v, held, bound[s.0]);
    NodesPut(nodes, granted, held, bound, Allocate(nodes[s.0], IdOf(s), name).value, s,
             Grants(granted, IdOf(s))[name := v], held[s] + {name}, bound[s.0][name := s.1]);
  }

  lemma Accepts(d: Data, w: View, r: Ref, name: string)
    requires Shows(d, w) && Seated(w, r) && name !in w.held[w.seats[r]]
    ensures Possible(d, Allocated(Ask(name), w.seats[r].0, r)) && d.master.store[r].id == IdOf(w.seats[r])
  {
    var s := w.seats[r];
    assert HeldAs(d.nodes[s.0], d.granted, IdOf(s), w.held[s]);
    assert SeatAs(d.master, r, s, w.counted[r]);
  }

  lemma AllocatedParts(d: Data, r: Request, n: string, dev: Ref)
    requires Possible(d, Allocated(r, n, dev))
    ensures var d', id := Apply(CFG, d, Allocated(r, n, dev)), d.master.store[dev].id;
            && d'.clients == d.clients && d'.master == d.master
            && d'.nodes == d.nodes[n := Allocate(d.nodes[n], id, r.name).value]
            && d'.granted == d.granted[id := Grants(d.granted, id)[r.name := VolumeOf(CFG, d.master, r, n, dev)]]
  {
  }

  lemma AcceptProper(w: View, r: Ref, name: string)
    requires Proper(w) && Seated(w, r)
    ensures Proper(Accept(w, r, name))
  {
  }

  lemma NodesShow(d: Data, d': Data, w: View, held: map<Slot, set<string>>, bound: map<string, map<string, nat>>)
    requires Shows(d, w) && d'.clients == d.clients && d'.master == d.master
    requires NodesAs(d'.nodes, d'.granted, held, bound) && Proper(w.(held := held, bound := bound))
    ensures Shows(d', w.(held := held, bound := bound))
  {
  }

  lemma AcceptShows(d: Data, w: View, r: Ref, name: string)
    requires Shows(d, w) && Seated(w, r) && name !in w.held[w.seats[r]]
    ensures Possible(d, Allocated(Ask(name), w.seats[r].0, r))
    ensures Shows(Apply(CFG, d, Allocated(Ask(name), w.seats[r].0, r)), Accept(w, r, name))
  {
    var s, w' := w.seats[r], Accept(w, r, name);
    Accepts(d, w, r, name);
    AllocatedParts(d, Ask(name), s.0, r);
    var v := VolumeOf(CFG, d.master, Ask(name), s.0, r);
    TakesOne(d.master, name, r, s.0);
    AcceptNodes(d.nodes, d.granted, w.held, w.bound, s, name, v);
    AcceptProper(w, r, name);
    NodesShow(d, Apply(CFG, d, Allocated(Ask(name), s.0, r)), w, w'.held, w'.bound);
  }

  // ----- a node frees a volume

  predicate Binds(w: View, n: string, name: string) {
    n in w.bound && name in w.bound[n] && (n, w.bound[n][name]) in w.held
  }

  function Free(w: View, n: string, name: string): View
    requires Binds(w, n, name)
  {
    var s := (n, w.bound[n][name]);
    w.(held := w.held[s := w.held[s] - {name}], bound := w.bound[n := w.bound[n] - {name}])
  }

  lemma FreeHeld(g: Manager<Ref>, granted: map<string, map<string, Volume>>, s: Slot, name: string, other: Slot,
                 names: set<string>)
    requires NodeOk(g, s.0) && DeAllocate(g, name).Some? && g.store[g.byVolume[name]].id == IdOf(s)
    requires HeldAs(g, granted, IdOf(other), names)
    ensures var granted' := granted[IdOf(s) := Grants(granted, IdOf(s)) - {name}];
            HeldAs(DeAllocate(g, name).value, granted', IdOf(other), if other == s then names - {name} else names)
  {
    DeAllocateCarries(g, s.0, name, IdOf(other), WHOLE, names);
    if other != s {
      IdsDiffer(s, other);
    }
  }

  lemma FreeBound(g: Manager<Ref>, n: string, bound: map<string, nat>, name: string)
    requires NodeOk(g, n) && BoundAs(g, n, bound) && DeAllocate(g, name).Some?
    ensures BoundAs(DeAllocate(g, name).value, n, bound - {name})
    ensures DeAllocate(g, name).value.byID == g.byID
  {
  }

  lemma FreeNode(g: Manager<Ref>, granted: map<string, map<string, Volume>>, s: Slot, name: string,
                 held: map<Slot, set<string>>, bound: map<string, nat>)
    requires NodeAs(g, granted, s.0, held, bound) && s in held && DeAllocate(g, name).Some?
    requires g.store[g.byVolume[name]].id == IdOf(s)
    ensures NodeAs(DeAllocate(g, name).value, granted[IdOf(s) := Grants(granted, IdOf(s)) - {name}], s.0,
                   held[s := held[s] - {name}], bound - {name})
  {
    var g', granted' := DeAllocate(g, name).value, granted[IdOf(s) := Grants(granted, IdOf(s)) - {name}];
    DeAllocateKeepsNode(g, s.0, name);
    FreeBound(g, s.0, bound, name);
    forall o | o in held && o.0 == s.0
      ensures HeldAs(g', granted', IdOf(o), if o == s then held[o] - {name} else held[o])
    {
      FreeHeld(g, granted, s, name, o, held[o]);
    }
    NodePut(g, g', granted', s, held, held[s] - {name}, bound - {name});
  }

  /** The node frees the name, and it is from there. */
  lemma FreesFromSlot(d: Data, w: View, n: string, name: string)
    requires Shows(d, w) && Binds(w, n, name)
    ensures Possible(d, DeAllocated(name, n)) && DeAllocate(d.nodes[n], name).Some?
    ensures BoundId(d, name, n) == IdOf((n, w.bound[n][name]))
  {
    assert NodeAs(d.nodes[n], d.granted, n, w.held, w.bound[n]);
  }

  lemma DeAllocatedParts(d: Data, name: string, n: string)
    requires Possible(d, DeAllocated(name, n))
    ensures var d', id := Apply(CFG, d, DeAllocated(name, n)), BoundId(d, name, n);
            && d'.clients == d.clients && d'.master == d.master
            && d'.nodes == d.nodes[n := DeAllocate(d.nodes[n], name).value]
            && d'.granted == d.granted[id := Grants(d.granted, id) - {name}]
  {
  }

  lemma FreeProper(w: View, n: string, name: string)
    requires Proper(w) && Binds(w, n, name)
    ensures Proper(Free(w, n, name))
  {
  }

  lemma FreeShows(d: Data, w: View, n: string, name: string)
    requires Shows(d, w) && Binds(w, n, name)
    ensures Possible(d, DeAllocated(name, n)) && Shows(Apply(CFG, d, DeAllocated(name, n)), Free(w, n, name))
  {
    var s, w' := (n, w.bound[n][name]), Free(w, n, name);
    FreesFromSlot(d, w, n, name);
    DeAllocatedParts(d, name, n);
    FreeNode(d.nodes[n], d.granted, s, name, w.held, w.bound[n]);
    NodesPut(d.nodes, d.granted, w.held, w.bound, DeAllocate(d.nodes[n], name).value, s,
             Grants(d.granted, IdOf(s)) - {name}, w.held[s] - {name}, w.bound[n] - {name});
    FreeProper(w, n, name);
    NodesShow(d, Apply(CFG, d, DeAllocated(name, n)), w, w'.held, w'.bound);
  }

  // ----- the master records and drops a name

  function Record(w: View, r: Ref, name: string): View
    requires r in w.counted
  {
    w.(index := w.index[name := r], counted := w.counted[r := w.counted[r] + {name}])
  }

  function Drop(w: View, r: Ref, name: string): View
    requires r in w.counted
  {
    w.(index := w.index - {name}, counted := w.counted[r := w.counted[r] - {name}])
  }

  lemma SeatsPut(m: Master<Ref>, m': Master<Ref>, seats: map<Ref, Slot>, counted: map<Ref, set<string>>, r: Ref,
                 volumes: map<string, Volume>)
    requires SeatsAs(m, seats, counted) && r in seats && r in m.store && m'.byNode == m.byNode
    requires m'.store == m.store[r := m.store[r].(volumes := volumes)]
    ensures SeatsAs(m', seats, counted[r := volumes.Keys])
  {
    var counted' := counted[r := volumes.Keys];
    forall x | x in seats ensures SeatAs(m', x, seats[x], counted'[x]) {
      SeatPut(m, m', r, volumes, x, seats[x], counted[x]);
    }
  }

  lemma SeatPut(m: Master<Ref>, m': Master<Ref>, r: Ref, volumes: map<string, Volume>, x: Ref, s: Slot,
                names: set<string>)
    requires SeatAs(m, x, s, names) && r in m.store && m'.byNode == m.byNode
    requires m'.store == m.store[r := m.store[r].(volumes := volumes)]
    ensures SeatAs(m', x, s, if x == r then volumes.Keys else names)
  {
  }

  lemma SeatIs(m: Master<Ref>, w: View, r: Ref)
    requires MasterAs(m, w) && r in w.seats
    ensures r in m.store && r in w.counted && m.store[r].volumes.Keys == w.counted[r]
  {
    assert SeatAs(m, r, w.seats[r], w.counted[r]);
  }

  lemma RecordSeats(m: Master<Ref>, w: View, r: Ref, name: string, v: Volume)
    requires MasterAs(m, w) && r in w.seats && r in m.store && m.store[r].volumes.Keys == w.counted[r]
    requires TablesInv(SetVolume(m, r, name, v))
    ensures MasterAs(SetVolume(m, r, name, v), Record(w, r, name))
  {
    var volumes := m.store[r].volumes[name := v];
    SeatsPut(m, SetVolume(m, r, name, v), w.seats, w.counted, r, volumes);
    assert volumes.Keys == w.counted[r] + {name};
  }

  lemma DropSeats(m: Master<Ref>, w: View, r: Ref, name: string)
    requires MasterAs(m, w) && r in w.seats && r in m.store && m.store[r].volumes.Keys == w.counted[r]
    requires TablesInv(DropVolume(m, r, name))
    ensures MasterAs(DropVolume(m, r, name), Drop(w, r, name))
  {
    var volumes := m.store[r].volumes - {name};
    SeatsPut(m, DropVolume(m, r, name), w.seats, w.counted, r, volumes);
    assert volumes.Keys == w.counted[r] - {name};
  }

  lemma CommittedParts(d: Data, r: Request, n: string, dev: Ref)
    requires Possible(d, Committed(r, n, dev)) && TablesInv(d.master)
    ensures var d' := Apply(CFG, d, Committed(r, n, dev));
            && d'.clients == d.clients && d'.nodes == d.nodes && d'.granted == d.granted && TablesInv(d'.master)
            && d'.master == SetVolume(d.master, dev, r.name, VolumeOf(CFG, d.master, r, n, dev))
  {
    EffectKeepsTables(CFG, d, Committed(r, n, dev));
  }

  lemma DroppedParts(d: Data, name: string, dev: Ref)
    requires Possible(d, Dropped(name, dev)) && TablesInv(d.master)
    ensures var d' := Apply(CFG, d, Dropped(name, dev));
            && d'.clients == d.clients && d'.nodes == d.nodes && d'.granted == d.granted && TablesInv(d'.master)
            && d'.master == DropVolume(d.master, dev, name)
  {
    EffectKeepsTables(CFG, d, Dropped(name, dev));
  }

  lemma RecordShows(d: Data, w: View, r: Ref, n: string, name: string)
    requires Shows(d, w) && r in w.seats
    ensures Possible(d, Committed(Ask(name), n, r))
    ensures Shows(Apply(CFG, d, Committed(Ask(name), n, r)), Record(w, r, name))
  {
    SeatIs(d.master, w, r);
    CommittedParts(d, Ask(name), n, r);
    RecordSeats(d.master, w, r, name, VolumeOf(CFG, d.master, Ask(name), n, r));
  }

  lemma DropShows(d: Data, w: View, r: Ref, name: string)
    requires Shows(d, w) && r in w.seats
    ensures Possible(d, Dropped(name, r)) && Shows(Apply(CFG, d, Dropped(name, r)), Drop(w, r, name))
  {
    SeatIs(d.master, w, r);
    DroppedParts(d, name, r);
    DropSeats(d.master, w, r, name);
  }

  // ----- a node starts

  lemma DistinctIds(n: string, c: nat)
    ensures forall j, k | 0 <= j < c && 0 <= k < c && DeviceId(n, j) == DeviceId(n, k) :: j == k
  {
    forall j, k | 0 <= j < c && 0 <= k < c && DeviceId(n, j) == DeviceId(n, k) ensures j == k {
      DeviceIdInjective(n, j, n, k);
    }
  }

  /** A node with c GPUs. */
  ghost function NewNode(n: string, c: nat): Manager<Ref> {
    DistinctIds(n, c);
    Manager(map k: Ref | 0 <= k < c :: DeviceId(n, k) := k, map[],
            map k: Ref | 0 <= k < c :: Device(DeviceId(n, k), map[], [], 100, WHOLE))
  }

  lemma NewNodeIds(n: string, c: nat)
    ensures var g := NewNode(n, c);
            && (forall i | i in g.byID :: g.byID[i] < c && i == DeviceId(n, g.byID[i]))
            && (forall k | 0 <= k < c :: DeviceId(n, k) in g.byID && g.byID[DeviceId(n, k)] == k)
  {
    DistinctIds(n, c);
  }

  lemma NewNodeBooted(n: string, c: nat)
    ensures Booted(NewNode(n, c), n) && NodeOk(NewNode(n, c), n)
  {
    var g := NewNode(n, c);
    NewNodeIds(n, c);
    forall i | i in g.byID ensures NodeOf(i) == n {
      NodeOfDeviceId(n, g.byID[i]);
    }
    BootedOk(g, n);
  }

  lemma NewNodeAs(n: string, c: nat, held: map<Slot, set<string>>)
    requires forall s | s in held && s.0 == n :: s.1 < c && held[s] == {}
    requires forall k: nat | k < c :: (n, k) in held
    ensures NodeAs(NewNode(n, c), map[], n, held, map[])
  {
    var g := NewNode(n, c);
    NewNodeIds(n, c);
    NewNodeBooted(n, c);
    forall i | i in g.byID ensures exists s :: s in held.Keys && s.0 == n && i == IdOf(s) {
      assert (n, g.byID[i]) in held.Keys;
    }
  }

  // ----- a node is added

  function Answer(n: string, c: nat): seq<Report> {
    seq(c, k requires 0 <= k < c => Report(DeviceId(n, k), 100, WHOLE))
  }

  /** The new objects, one for each device. */
  ghost predicate Seats(n: string, refs: seq<Ref>, added: map<Ref, Slot>) {
    && (forall k | 0 <= k < |refs| :: refs[k] in added && added[refs[k]] == (n, k))
    && (forall r | r in added :: r in refs)
  }

  function Join(w: View, n: string, endpoint: string, added: map<Ref, Slot>): View {
    w.(endpoints := w.endpoints[n := endpoint], objects := w.objects + added.Keys,
       seats := JoinSeats(w.seats, n, added), counted := JoinCounted(w.seats, w.counted, n, added))
  }

  function JoinSeats(seats: map<Ref, Slot>, n: string, added: map<Ref, Slot>): map<Ref, Slot> {
    (map r | r in seats && seats[r].0 != n :: seats[r]) + added
  }

  function JoinCounted(seats: map<Ref, Slot>, counted: map<Ref, set<string>>, n: string, added: map<Ref, Slot>):
      map<Ref, set<string>> {
    (map r | r in seats && r in counted && seats[r].0 != n :: counted[r]) + (map r | r in added :: {})
  }

  /** The node has as many devices, and the objects are new. */
  ghost predicate MayJoin(w: View, n: string, refs: seq<Ref>, added: map<Ref, Slot>) {
    && n in w.bound && Seats(n, refs, added) && added.Keys !! w.objects
    && (forall s | s in w.held && s.0 == n :: s.1 < |refs|) && (forall k: nat | k < |refs| :: (n, k) in w.held)
  }

  lemma AnswerKnown(g: Manager<Ref>, granted: map<string, map<string, Volume>>, n: string,
                    held: map<Slot, set<string>>, c: nat, k: nat)
    requires AllHeld(g, granted, n, held) && k < c && (n, k) in held
    ensures var report := Answer(n, c)[k];
            report.id in g.byID && g.byID[report.id] in g.store && report.params == g.store[g.byID[report.id]].params
  {
    assert HeldAs(g, granted, IdOf((n, k)), held[(n, k)]);
  }

  lemma AnswerComplete(byID: map<string, Ref>, n: string, slots: set<Slot>, c: nat, i: string)
    requires HasSlots(byID, n, slots) && i in byID && forall s | s in slots && s.0 == n :: s.1 < c
    ensures exists k :: 0 <= k < |Answer(n, c)| && Answer(n, c)[k].id == i
  {
    var s :| s in slots && s.0 == n && i == IdOf(s);
    assert Answer(n, c)[s.1].id == i;
  }

  lemma AnswerWell(n: string, c: nat)
    ensures WellReported(n, Answer(n, c))
  {
    DistinctIds(n, c);
    forall k | 0 <= k < c ensures NodeOf(DeviceId(n, k)) == n {
      NodeOfDeviceId(n, k);
    }
  }

  lemma AnswerHonest(d: Data, n: string, held: map<Slot, set<string>>, bound: map<string, nat>, c: nat)
    requires n in d.nodes && NodeAs(d.nodes[n], d.granted, n, held, bound)
    requires (forall s | s in held && s.0 == n :: s.1 < c) && forall k: nat | k < c :: (n, k) in held
    ensures HonestReports(d, n, Answer(n, c))
  {
    var g := d.nodes[n];
    forall k | 0 <= k < |Answer(n, c)|
      ensures Answer(n, c)[k].id in g.byID && g.byID[Answer(n, c)[k].id] in g.store
      ensures Answer(n, c)[k].params == g.store[g.byID[Answer(n, c)[k].id]].params
    {
      AnswerKnown(g, d.granted, n, held, c, k);
    }
    forall i | i in g.byID ensures exists k :: 0 <= k < |Answer(n, c)| && Answer(n, c)[k].id == i {
      AnswerComplete(g.byID, n, held.Keys, c, i);
    }
  }

  lemma JoinReports(d: Data, w: View, n: string, refs: seq<Ref>, added: map<Ref, Slot>)
    requires Shows(d, w) && MayJoin(w, n, refs, added)
    ensures WellReported(n, Answer(n, |refs|)) && HonestReports(d, n, Answer(n, |refs|))
  {
    AnswerWell(n, |refs|);
    AnswerHonest(d, n, w.held, w.bound[n], |refs|);
  }

  lemma SeatsFresh(m: Master<Ref>, n: string, refs: seq<Ref>, added: map<Ref, Slot>)
    requires Seats(n, refs, added) && added.Keys !! m.store.Keys
    ensures FreshRefs(m, refs)
  {
  }

  lemma OldSeat(m: Master<Ref>, n: string, reports: seq<Report>, refs: seq<Ref>, r: Ref, s: Slot, names: set<string>)
    requires RefsOk(m) && |reports| == |refs| && FreshRefs(m, refs) && SeatAs(m, r, s, names) && s.0 != n
    ensures SeatAs(AddNode(m, n, reports, refs), r, s, names)
  {
    AddNodeStore(m, n, reports, refs);
  }

  lemma NewSeat(m: Master<Ref>, n: string, refs: seq<Ref>, k: nat)
    requires RefsOk(m) && FreshRefs(m, refs) && k < |refs|
    ensures SeatAs(AddNode(m, n, Answer(n, |refs|), refs), refs[k], (n, k), {})
  {
    AddNodeStore(m, n, Answer(n, |refs|), refs);
  }

  lemma SeatJoins(m: Master<Ref>, seats: map<Ref, Slot>, counted: map<Ref, set<string>>, n: string, refs: seq<Ref>,
                  added: map<Ref, Slot>, r: Ref)
    requires RefsOk(m) && SeatsAs(m, seats, counted) && FreshRefs(m, refs) && Seats(n, refs, added)
    requires r in JoinSeats(seats, n, added)
    ensures r in JoinCounted(seats, counted, n, added)
    ensures SeatAs(AddNode(m, n, Answer(n, |refs|), refs), r, JoinSeats(seats, n, added)[r],
                   JoinCounted(seats, counted, n, added)[r])
  {
    if r in added {
      var k :| 0 <= k < |refs| && refs[k] == r;
      NewSeat(m, n, refs, k);
    } else {
      assert SeatAs(m, r, seats[r], counted[r]);
      OldSeat(m, n, Answer(n, |refs|), refs, r, seats[r], counted[r]);
    }
  }

  lemma SeatsJoin(m: Master<Ref>, seats: map<Ref, Slot>, counted: map<Ref, set<string>>, n: string, refs: seq<Ref>,
                  added: map<Ref, Slot>)
    requires RefsOk(m) && SeatsAs(m, seats, counted) && FreshRefs(m, refs) && Seats(n, refs, added)
    ensures SeatsAs(AddNode(m, n, Answer(n, |refs|), refs), JoinSeats(seats, n, added),
                    JoinCounted(seats, counted, n, added))
  {
    forall r | r in JoinSeats(seats, n, added)
      ensures r in JoinCounted(seats, counted, n, added)
      ensures SeatAs(AddNode(m, n, Answer(n, |refs|), refs), r, JoinSeats(seats, n, added)[r],
                     JoinCounted(seats, counted, n, added)[r])
    {
      SeatJoins(m, seats, counted, n, refs, added, r);
    }
  }

  lemma JoinObjects(m: Master<Ref>, n: string, refs: seq<Ref>, added: map<Ref, Slot>)
    requires RefsOk(m) && FreshRefs(m, refs) && Seats(n, refs, added)
    ensures AddNode(m, n, Answer(n, |refs|), refs).store.Keys == m.store.Keys + added.Keys
  {
    AddNodeStore(m, n, Answer(n, |refs|), refs);
  }

  lemma JoinMaster(m: Master<Ref>, w: View, n: string, endpoint: string, refs: seq<Ref>, added: map<Ref, Slot>)
    requires MasterAs(m, w) && FreshRefs(m, refs) && Seats(n, refs, added)
    ensures MasterAs(AddNode(m, n, Answer(n, |refs|), refs), Join(w, n, endpoint, added))
  {
    AnswerWell(n, |refs|);
    AddKeepsTables(m, n, Answer(n, |refs|), refs);
    SeatsJoin(m, w.seats, w.counted, n, refs, added);
    JoinObjects(m, n, refs, added);
  }

  lemma JoinProper(w: View, n: string, endpoint: string, refs: seq<Ref>, added: map<Ref, Slot>)
    requires Proper(w) && MayJoin(w, n, refs, added)
    ensures Proper(Join(w, n, endpoint, added))
  {
  }

  lemma JoinClients(clients: map<string, NodeInfo>, endpoints: map<string, string>, n: string, endpoint: string)
    requires ClientsAs(clients, endpoints)
    ensures ClientsAs(clients[n := NodeInfo(n, endpoint)], endpoints[n := endpoint])
  {
  }

  lemma MasterShows(d: Data, d': Data, w: View, w': View)
    requires NodesAs(d.nodes, d.granted, w.held, w.bound) && Proper(w') && w'.held == w.held && w'.bound == w.bound
    requires ClientsAs(d'.clients, w'.endpoints) && MasterAs(d'.master, w')
    requires d'.nodes == d.nodes && d'.granted == d.granted
    ensures Shows(d', w')
  {
  }

  lemma JoinShows(d: Data, w: View, n: string, endpoint: string, refs: seq<Ref>, added: map<Ref, Slot>)
    requires Shows(d, w) && MayJoin(w, n, refs, added)
    ensures Possible(d, Added(NodeInfo(n, endpoint), Answer(n, |refs|), refs))
    ensures Shows(Registered(d, NodeInfo(n, endpoint), Answer(n, |refs|), refs), Join(w, n, endpoint, added))
  {
    SeatsFresh(d.master, n, refs, added);
    JoinMaster(d.master, w, n, endpoint, refs, added);
    JoinProper(w, n, endpoint, refs, added);
    JoinClients(d.clients, w.endpoints, n, endpoint);
    MasterShows(d, Registered(d, NodeInfo(n, endpoint), Answer(n, |refs|), refs), w, Join(w, n, endpoint, added));
  }

  // ----- what a view tells

  lemma SeatShown(d: Data, w: View, r: Ref)
    requires Shows(d, w) && r in w.seats
    ensures r in w.counted && r in d.master.store
    ensures d.master.store[r].id == IdOf(w.seats[r]) && d.master.store[r].volumes.Keys == w.counted[r]
  {
    assert SeatAs(d.master, r, w.seats[r], w.counted[r]);
  }

  lemma NodeShown(d: Data, w: View, n: string)
    requires Shows(d, w) && n in w.bound
    ensures n in d.nodes && d.nodes[n].byVolume.Keys == w.bound[n].Keys
  {
    assert NodeAs(d.nodes[n], d.granted, n, w.held, w.bound[n]);
  }

  lemma SlotShown(d: Data, w: View, s: Slot)
    requires Shows(d, w) && s in w.held
    ensures Grants(d.granted, IdOf(s)).Keys == w.held[s]
  {
    assert NodeAs(d.nodes[s.0], d.granted, s.0, w.held, w.bound[s.0]);
    assert HeldAs(d.nodes[s.0], d.granted, IdOf(s), w.held[s]);
  }

  /** The node's device holds exactly what was granted on it, and that is more than it has. */
  ghost predicate TooMuch(device: Device, granted: map<string, Volume>) {
    && IsGpu(device) && device.volumes.Keys == granted.Keys
    && Used(CFG.parse, granted, MEMORY) > Limit(CFG.parse, device, MEMORY)
  }

  ghost predicate Overcommitted(d: Data, s: Slot) {
    && s.0 in d.nodes && IdOf(s) in d.nodes[s.0].byID && d.nodes[s.0].byID[IdOf(s)] in d.nodes[s.0].store
    && TooMuch(d.nodes[s.0].store[d.nodes[s.0].byID[IdOf(s)]], Grants(d.granted, IdOf(s)))
  }

  lemma WholeLimit(device: Device)
    requires device.params == WHOLE
    ensures IsGpu(device) && Limit(CFG.parse, device, MEMORY) == 1
  {
  }

  lemma TwoIsTooMuch(device: Device, granted: map<string, Volume>, names: set<string>)
    requires device.params == WHOLE && device.volumes.Keys == names && Ones(granted, names) && |names| > 1
    ensures TooMuch(device, granted)
  {
    OnesSum(granted, names);
    WholeLimit(device);
  }

  lemma Overcommits(d: Data, w: View, s: Slot)
    requires Shows(d, w) && s in w.held && |w.held[s]| > 1
    ensures Overcommitted(d, s)
  {
    var g := d.nodes[s.0];
    assert HeldAs(g, d.granted, IdOf(s), w.held[s]);
    TwoIsTooMuch(g.store[g.byID[IdOf(s)]], Grants(d.granted, IdOf(s)), w.held[s]);
  }
}
