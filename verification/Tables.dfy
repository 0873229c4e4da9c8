/** The bookkeeping of the two allocators as values. R stands for a pointer to a DeviceInfo; the
    store gives the contents of every DeviceInfo created so far, so that two tables holding the
    same R share one device. */
module Tables {
  import opened Wrappers
  import opened Decimal
  import opened Devices

  // ----- the master controller

  datatype Master<R> = Master(byVolume: map<string, R>, byID: map<string, R>,
                              byNode: map<string, seq<R>>, store: map<R, Device>)

  /** One device of a node's answer to ListVolumes. */
  datatype Report = Report(id: string, size: int, params: Params)

  /** No table of the master holds a pointer to nowhere. */
  ghost predicate RefsOk<R>(m: Master<R>) {
    && (forall v | v in m.byVolume :: m.byVolume[v] in m.store)
    && (forall i | i in m.byID :: m.byID[i] in m.store)
    && (forall n | n in m.byNode :: forall k | 0 <= k < |m.byNode[n]| :: m.byNode[n][k] in m.store)
  }

  ghost predicate Listed<R>(m: Master<R>, n: string, d: R) {
    n in m.byNode && d in m.byNode[n]
  }

  ghost predicate Distinct<T>(s: seq<T>) {
    forall i, j | 0 <= i < j < |s| :: s[i] != s[j]
  }

  ghost predicate FreshRefs<R>(m: Master<R>, refs: seq<R>) {
    Distinct(refs) && forall k | 0 <= k < |refs| :: refs[k] !in m.store
  }

  function NewDevice(r: Report): Device {
    Device(r.id, map[], [], r.size, r.params)
  }

  /** Later entries with the same id overwrite earlier ones. */
  ghost function PutIDs<R>(byID: map<string, R>, reports: seq<Report>, refs: seq<R>): map<string, R>
    requires |reports| == |refs|
  {
    if |refs| == 0 then byID
    else
      var k := |refs| - 1;
      PutIDs(byID, reports[..k], refs[..k])[reports[k].id := refs[k]]
  }

  ghost function PutDevices<R>(store: map<R, Device>, reports: seq<Report>, refs: seq<R>): map<R, Device>
    requires |reports| == |refs|
  {
    if |refs| == 0 then store
    else
      var k := |refs| - 1;
      PutDevices(store, reports[..k], refs[..k])[refs[k] := NewDevice(reports[k])]
  }

  ghost function ListedIDs<R>(m: Master<R>, n: string): set<string>
    requires RefsOk(m)
  {
    if n in m.byNode then set k | 0 <= k < |m.byNode[n]| :: m.store[m.byNode[n][k]].id else {}
  }

  /** The locked part of OnNodeAdded: new, empty devices replace whatever the node had listed. */
  ghost function AddNode<R>(m: Master<R>, n: string, reports: seq<Report>, refs: seq<R>): Master<R>
    requires RefsOk(m) && |reports| == |refs|
  {
    Master(
      m.byVolume,
      PutIDs(m.byID - ListedIDs(m, n), reports, refs),
      m.byNode[n := refs],
      PutDevices(m.store, reports, refs))
  }

  /** OnNodeDeleted leaves byID alone. */
  ghost function RemoveNode<R>(m: Master<R>, n: string): Master<R> {
    m.(byNode := m.byNode - {n})
  }

  /** The two writes at the end of CreateVolume. */
  ghost function SetVolume<R>(m: Master<R>, d: R, name: string, v: Volume): Master<R>
    requires d in m.store
  {
    m.(byVolume := m.byVolume[name := d], store := m.store[d := m.store[d].(volumes := m.store[d].volumes[name := v])])
  }

  /** The volume of a successful CreateVolume: the request's name, size and parameters, with the device's id
      among these, and the node it is on for its topology. */
  function NewVolume<R>(m: Master<R>, key: string, name: string, size: int, params: Params, n: string, d: R): Volume
    requires d in m.store
  {
    Vol(name, size, [map[key := n]], params["ID" := m.store[d].id])
  }

  /** Recording it takes from the device exactly the amount under this name in the request, whatever the
      device held; a volume of the same name is replaced. */
  lemma CreateTakes<R>(parse: Parser, m: Master<R>, key: string, name: string, size: int, params: Params, n: string,
                       d: R, p: string)
    requires d in m.store && (p == "memory" || p == "millicores") && p in params && parse(params[p]).Some?
    ensures var m', want := SetVolume(m, d, name, NewVolume(m, key, name, size, params, n, d)), parse(params[p]).value;
            && d in m'.store && m'.store[d].volumes.Keys == m.store[d].volumes.Keys + {name}
            && Used(parse, m'.store[d].volumes, p) ==
                 Used(parse, m.store[d].volumes - {name}, p) + if want > 0 then want else 0
  {
    UsedExactly(parse, m.store[d].volumes, p, name, NewVolume(m, key, name, size, params, n, d));
  }

  /** The two deletions of DeleteVolume; d is the device read before the lock was taken. */
  ghost function DropVolume<R>(m: Master<R>, d: R, name: string): Master<R>
    requires d in m.store
  {
    m.(byVolume := m.byVolume - {name}, store := m.store[d := m.store[d].(volumes := m.store[d].volumes - {name})])
  }

  lemma {:induction false} PutIDsSpec<R>(byID: map<string, R>, reports: seq<Report>, refs: seq<R>, id: string)
    requires |reports| == |refs|
    ensures id in PutIDs(byID, reports, refs) <==> id in byID || exists k :: 0 <= k < |reports| && reports[k].id == id
    ensures (forall k | 0 <= k < |reports| :: reports[k].id != id) ==>
              (id in byID <==> id in PutIDs(byID, reports, refs))
                  && (id in byID ==> PutIDs(byID, reports, refs)[id] == byID[id])
    ensures (exists k :: 0 <= k < |reports| && reports[k].id == id) ==>
              id in PutIDs(byID, reports, refs) &&
              exists k :: 0 <= k < |reports| && reports[k].id == id && PutIDs(byID, reports, refs)[id] == refs[k]
  {
    if |refs| > 0 {
      var k := |refs| - 1;
      PutIDsSpec(byID, reports[..k], refs[..k], id);
      if reports[k].id != id && exists j :: 0 <= j < |reports| && reports[j].id == id {
        var j :| 0 <= j < |reports| && reports[j].id == id;
        assert reports[..k][j].id == id;
        var i :| 0 <= i < k && reports[..k][i].id == id && PutIDs(byID, reports[..k], refs[..k])[id] == refs[..k][i];
        assert reports[i].id == id && PutIDs(byID, reports, refs)[id] == refs[i];
      }
    }
  }

  lemma {:induction false} PutDevicesSpec<R>(store: map<R, Device>, reports: seq<Report>, refs: seq<R>, d: R)
    requires |reports| == |refs|
    ensures d in PutDevices(store, reports, refs) <==> d in store || d in refs
    ensures d !in refs && d in store ==> PutDevices(store, reports, refs)[d] == store[d]
    ensures d in refs ==>
              exists k ::
                0 <= k < |refs| && refs[k] == d && PutDevices(store, reports, refs)[d] == NewDevice(reports[k])
  {
    if |refs| > 0 {
      var k := |refs| - 1;
      PutDevicesSpec(store, reports[..k], refs[..k], d);
      assert refs == refs[..k] + [refs[k]];
      if d != refs[k] && d in refs {
        var i :| 0 <= i < k && refs[..k][i] == d
            && PutDevices(store, reports[..k], refs[..k])[d] == NewDevice(reports[..k][i]);
        assert refs[i] == d && PutDevices(store, reports, refs)[d] == NewDevice(reports[i]);
      }
    }
  }

  /** The whole effect of AddNode on the store, for distinct new pointers. */
  lemma AddNodeStore<R>(m: Master<R>, n: string, reports: seq<Report>, refs: seq<R>)
    requires RefsOk(m) && |reports| == |refs| && FreshRefs(m, refs)
    ensures var m' := AddNode(m, n, reports, refs);
            && (forall d | d in m.store :: d in m'.store && m'.store[d] == m.store[d])
            && (forall k | 0 <= k < |refs| :: refs[k] in m'.store && m'.store[refs[k]] == NewDevice(reports[k]))
            && (forall d | d in m'.store :: d in m.store || d in refs)
  {
    var m' := AddNode(m, n, reports, refs);
    forall d | d in m.store ensures d in m'.store && m'.store[d] == m.store[d] {
      PutDevicesSpec(m.store, reports, refs, d);
    }
    forall k | 0 <= k < |refs| ensures refs[k] in m'.store && m'.store[refs[k]] == NewDevice(reports[k]) {
      PutDevicesSpec(m.store, reports, refs, refs[k]);
    }
    forall d | d in m'.store ensures d in m.store || d in refs {
      PutDevicesSpec(m.store, reports, refs, d);
    }
  }

  /** Adding a node leaves no pointer to nowhere. */
  lemma AddNodeRefsOk<R>(m: Master<R>, n: string, reports: seq<Report>, refs: seq<R>)
    requires RefsOk(m) && |reports| == |refs| && FreshRefs(m, refs)
    ensures RefsOk(AddNode(m, n, reports, refs))
  {
    AddNodeStore(m, n, reports, refs);
    var m' := AddNode(m, n, reports, refs);
    forall i | i in m'.byID ensures m'.byID[i] in m'.store {
      PutIDsSpec(m.byID - ListedIDs(m, n), reports, refs, i);
    }
  }

  lemma {:induction false} PutIDsLast<R>(byID: map<string, R>, reports: seq<Report>, refs: seq<R>, k: nat)
    requires |reports| == |refs| && k < |reports| && forall j | k < j < |reports| :: reports[j].id != reports[k].id
    ensures reports[k].id in PutIDs(byID, reports, refs) && PutIDs(byID, reports, refs)[reports[k].id] == refs[k]
  {
    var last := |refs| - 1;
    if k < last {
      PutIDsLast(byID, reports[..last], refs[..last], k);
      assert reports[last].id != reports[k].id;
    }
  }

  /** What an addition does to devicesByIDs: the last entry with an id gets it. */
  lemma ReportedID<R>(m: Master<R>, n: string, reports: seq<Report>, refs: seq<R>, k: nat)
    requires RefsOk(m) && |reports| == |refs| && k < |reports|
    requires forall j | k < j < |reports| :: reports[j].id != reports[k].id
    ensures var m' := AddNode(m, n, reports, refs); reports[k].id in m'.byID && m'.byID[reports[k].id] == refs[k]
  {
    PutIDsLast(m.byID - ListedIDs(m, n), reports, refs, k);
  }

  /** An id that is not reported is gone if the node listed it before, and else is as it was. */
  lemma UnreportedID<R>(m: Master<R>, n: string, reports: seq<Report>, refs: seq<R>, id: string)
    requires RefsOk(m) && |reports| == |refs| && forall k | 0 <= k < |reports| :: reports[k].id != id
    ensures var m' := AddNode(m, n, reports, refs);
            if exists d :: Listed(m, n, d) && m.store[d].id == id then id !in m'.byID
            else (id in m'.byID <==> id in m.byID) && (id in m.byID ==> m'.byID[id] == m.byID[id])
  {
    PutIDsSpec(m.byID - ListedIDs(m, n), reports, refs, id);
    ListedByID(m, n, id);
  }

  lemma ListedByID<R>(m: Master<R>, n: string, id: string)
    requires RefsOk(m)
    ensures id in ListedIDs(m, n) <==> exists d :: Listed(m, n, d) && m.store[d].id == id
  {
    if id in ListedIDs(m, n) {
      var k :| 0 <= k < |m.byNode[n]| && m.store[m.byNode[n][k]].id == id;
      assert Listed(m, n, m.byNode[n][k]);
    }
  }

  // ----- searching the master's tables

  datatype FindResult<R> = Found(node: string, device: R) | Missing(code: Code)

  ghost function Verdict<R>(parse: Parser, m: Master<R>, params: Params, d: R): Code {
    if d in m.store then Match(parse, m.store[d], params) else NotFound
  }

  /** The verdicts on a list of devices, in list order. */
  ghost function Verdicts<R>(parse: Parser, m: Master<R>, params: Params, ds: seq<R>): (codes: seq<Code>)
    ensures |codes| == |ds|
  {
    seq(|ds|, k requires 0 <= k < |ds| => Verdict(parse, m, params, ds[k]))
  }

  predicate FirstOk(codes: seq<Code>, k: int) {
    0 <= k < |codes| && codes[k] == OK && forall i | 0 <= i < k :: codes[i] != OK
  }

  predicate LastOk(codes: seq<Code>, k: int) {
    0 <= k < |codes| && codes[k] == OK && forall i | k < i < |codes| :: codes[i] != OK
  }

  /** Some device of the node gets this verdict. */
  ghost predicate NodeHas<R>(parse: Parser, m: Master<R>, params: Params, n: string, code: Code) {
    n in m.byNode && code in Verdicts(parse, m, params, m.byNode[n])
  }

  ghost predicate FirstMatch<R>(parse: Parser, m: Master<R>, params: Params, n: string, d: R) {
    n in m.byNode && exists k :: FirstOk(Verdicts(parse, m, params, m.byNode[n]), k) && m.byNode[n][k] == d
  }

  ghost predicate LastMatch<R>(parse: Parser, m: Master<R>, params: Params, n: string, d: R) {
    n in m.byNode && exists k :: LastOk(Verdicts(parse, m, params, m.byNode[n]), k) && m.byNode[n][k] == d
  }

  /** n is the first of the requested nodes, in request order, to hold a matching device. */
  ghost predicate FirstRequested(matching: set<string>, requested: seq<string>, n: string) {
    exists k :: 0 <= k < |requested| && requested[k] == n && n in matching
                && forall i | 0 <= i < k :: requested[i] !in matching
  }

  ghost predicate AnyRequested(nodes: set<string>, requested: seq<string>) {
    exists k :: 0 <= k < |requested| && requested[k] in nodes
  }

  ghost function NodesWith<R>(parse: Parser, m: Master<R>, params: Params, code: Code): set<string> {
    set n | n in m.byNode && NodeHas(parse, m, params, n, code)
  }

  /** What findDevice may answer, over all iteration orders of devicesByNodes. */
  ghost predicate FindOutcome<R>(parse: Parser, m: Master<R>, params: Params, requested: seq<string>,
                                 r: FindResult<R>) {
    var matching := NodesWith(parse, m, params, OK);
    match r
    case Found(n, d) =>
      if |requested| == 0 then FirstMatch(parse, m, params, n, d)
      else
        && LastMatch(parse, m, params, n, d)
        && (AnyRequested(matching, requested) ==> FirstRequested(matching, requested, n))
    case Missing(code) =>
      && matching == {}
      && code == if AnyRequested(NodesWith(parse, m, params, ResourceExhausted), requested) then ResourceExhausted
           else NotFound
  }

  lemma MatchIsListed<R>(parse: Parser, m: Master<R>, params: Params, n: string, d: R)
    requires FirstMatch(parse, m, params, n, d) || LastMatch(parse, m, params, n, d)
    ensures NodeHas(parse, m, params, n, OK) && Listed(m, n, d) && d in m.store
              && Match(parse, m.store[d], params) == OK
  {
    var codes := Verdicts(parse, m, params, m.byNode[n]);
    if FirstMatch(parse, m, params, n, d) {
      var k :| FirstOk(codes, k) && m.byNode[n][k] == d;
      assert codes[k] == Verdict(parse, m, params, d);
    } else {
      var k :| LastOk(codes, k) && m.byNode[n][k] == d;
      assert codes[k] == Verdict(parse, m, params, d);
    }
  }

  lemma ListedMatch<R>(parse: Parser, m: Master<R>, params: Params, n: string, d: R)
    requires Listed(m, n, d) && d in m.store && Match(parse, m.store[d], params) == OK
    ensures n in NodesWith(parse, m, params, OK)
  {
    var k :| 0 <= k < |m.byNode[n]| && m.byNode[n][k] == d;
    assert Verdicts(parse, m, params, m.byNode[n])[k] == OK;
  }

  /** Some device of the node would match once volumes are freed. */
  ghost predicate NodeExhausted<R>(parse: Parser, m: Master<R>, params: Params, n: string)
    requires RefsOk(m)
  {
    && n in m.byNode
    && exists k ::
         0 <= k < |m.byNode[n]| && Match(parse, m.store[m.byNode[n][k]], params) == ResourceExhausted
  }

  lemma ExhaustedNode<R>(parse: Parser, m: Master<R>, params: Params, n: string)
    requires RefsOk(m)
    ensures n in NodesWith(parse, m, params, ResourceExhausted) <==> NodeExhausted(parse, m, params, n)
  {
    if NodeExhausted(parse, m, params, n) {
      var k :| 0 <= k < |m.byNode[n]| && Match(parse, m.store[m.byNode[n][k]], params) == ResourceExhausted;
      assert Verdicts(parse, m, params, m.byNode[n])[k] == ResourceExhausted;
    }
  }

  /** A device is found exactly when some listed device matches; what is found is listed under the
      node given, and matches. Otherwise the code is ResourceExhausted exactly when a requested node
      has an exhausted device, else NotFound. */
  lemma FindSoundComplete<R>(parse: Parser, m: Master<R>, params: Params, requested: seq<string>, r: FindResult<R>)
    requires RefsOk(m) && FindOutcome(parse, m, params, requested, r)
    ensures r.Found? <==> exists n, d :: Listed(m, n, d) && Match(parse, m.store[d], params) == OK
    ensures r.Found? ==> Listed(m, r.node, r.device) && Match(parse, m.store[r.device], params) == OK
    ensures r.Missing? ==>
              r.code == if exists k :: 0 <= k < |requested| && NodeExhausted(parse, m, params, requested[k])
                        then ResourceExhausted else NotFound
  {
    forall k | 0 <= k < |requested|
      ensures requested[k] in NodesWith(parse, m, params, ResourceExhausted)
              <==> NodeExhausted(parse, m, params, requested[k])
    {
      ExhaustedNode(parse, m, params, requested[k]);
    }
    if r.Found? {
      MatchIsListed(parse, m, params, r.node, r.device);
    }
    forall n, d | Listed(m, n, d) && Match(parse, m.store[d], params) == OK
      ensures NodesWith(parse, m, params, OK) != {}
    {
      ListedMatch(parse, m, params, n, d);
    }
  }

  lemma FirstRequestedUnique(matching: set<string>, requested: seq<string>, n: string, n': string)
    requires FirstRequested(matching, requested, n) && FirstRequested(matching, requested, n')
    ensures n == n'
  {
  }

  lemma MatchUnique<R>(parse: Parser, m: Master<R>, params: Params, n: string, d: R, d': R)
    ensures FirstMatch(parse, m, params, n, d) && FirstMatch(parse, m, params, n, d') ==> d == d'
    ensures LastMatch(parse, m, params, n, d) && LastMatch(parse, m, params, n, d') ==> d == d'
  {
  }

  /** The iteration order can only decide between nodes nobody asked for: two answers to the same
      request agree on success, on the error code, on the device once the node is the same, and on
      node and device as soon as some requested node has a match. */
  lemma FindAgreement<R>(parse: Parser, m: Master<R>, params: Params, requested: seq<string>, r: FindResult<R>,
                         r': FindResult<R>)
    requires FindOutcome(parse, m, params, requested, r) && FindOutcome(parse, m, params, requested, r')
    ensures r.Found? == r'.Found?
    ensures r.Missing? ==> r == r'
    ensures r.Found? && r.node == r'.node ==> r == r'
    ensures r.Found? && AnyRequested(NodesWith(parse, m, params, OK), requested) ==> r == r'
  {
    var matching := NodesWith(parse, m, params, OK);
    if r.Found? {
      MatchIsListed(parse, m, params, r.node, r.device);
      assert r.node in matching;
    }
    if r'.Found? {
      MatchIsListed(parse, m, params, r'.node, r'.device);
      assert r'.node in matching;
    }
    if r.Found? {
      if AnyRequested(matching, requested) {
        FirstRequestedUnique(matching, requested, r.node, r'.node);
      }
      if r.node == r'.node {
        MatchUnique(parse, m, params, r.node, r.device, r'.device);
      }
    }
  }

  /** What findDeviceNode may answer. */
  ghost predicate RouteOutcome<R>(m: Master<R>, id: string, r: Option<string>)
    requires RefsOk(m)
  {
    match r
    case Some(n) => n in m.byNode && id in ListedIDs(m, n)
    case None => forall n | n in m.byNode :: id !in ListedIDs(m, n)
  }

  /** The volumes on the devices play no part in routing. */
  lemma DropKeepsRoutes<R>(m: Master<R>, d: R, name: string)
    requires RefsOk(m) && d in m.store
    ensures RefsOk(DropVolume(m, d, name))
    ensures forall n | n in m.byNode :: ListedIDs(DropVolume(m, d, name), n) == ListedIDs(m, n)
  {
    var m' := DropVolume(m, d, name);
    forall n | n in m.byNode ensures ListedIDs(m', n) == ListedIDs(m, n) {
      assert forall k | 0 <= k < |m.byNode[n]| :: m'.store[m.byNode[n][k]].id == m.store[m.byNode[n][k]].id;
    }
  }

  // ----- a node's device manager

  datatype Manager<R> = Manager(byID: map<string, R>, byVolume: map<string, R>, store: map<R, Device>)

  ghost predicate ManagerRefsOk<R>(g: Manager<R>) {
    && (forall i | i in g.byID :: g.byID[i] in g.store)
    && (forall v | v in g.byVolume :: g.byVolume[v] in g.store)
  }

  /** DeviceManager.Allocate: None is its error. */
  ghost function Allocate<R>(g: Manager<R>, id: string, name: string): Option<Manager<R>>
    requires ManagerRefsOk(g)
  {
    if id !in g.byID || name in g.store[g.byID[id]].volumes then None
    else
      var d := g.byID[id];
      Some(g.(byVolume := g.byVolume[name := d],
          store := g.store[d := g.store[d].(volumes := g.store[d].volumes[name := Nil])]))
  }

  /** DeviceManager.DeAllocate: None is its error. */
  ghost function DeAllocate<R>(g: Manager<R>, name: string): Option<Manager<R>>
    requires ManagerRefsOk(g)
  {
    if name !in g.byVolume then None
    else
      var d := g.byVolume[name];
      Some(g.(byVolume := g.byVolume - {name},
          store := g.store[d := g.store[d].(volumes := g.store[d].volumes - {name})]))
  }

  /** A device manager as a node has it after start-up: every device under its own id, with the node's
      name in front, and no volume. */
  ghost predicate Booted<R>(g: Manager<R>, n: string) {
    && g.byVolume == map[]
    && (forall i | i in g.byID :: NodeOf(i) == n && g.byID[i] in g.store && g.store[g.byID[i]].id == i)
    && (forall i, j | i in g.byID && j in g.byID && i != j :: g.byID[i] != g.byID[j])
    && (forall d | d in g.store :: g.store[d].volumes == map[])
  }
}
