/** Whole calls, one after the other, on what a view shows. */
module Scripts {
  import opened Wrappers
  import opened Devices
  import opened Tables
  import opened Registry
  import opened System
  import opened Reliability
  import opened RoundTrip
  import opened Reach
  import opened Views

  ghost predicate Now(ps: set<Promise>, threads: map<Tid, Pc>, w: View, d: Data) {
    Reached(CFG, ps, threads, d) && Idle(CFG, threads) && Shows(d, w)
  }

  /** Some run that keeps the promises leads to these threads, all of them idle, and to what the view shows. */
  ghost predicate At(ps: set<Promise>, threads: map<Tid, Pc>, w: View) {
    exists d :: Now(ps, threads, w, d)
  }

  lemma Same<K, V>(m: map<K, V>, k: K, v: V)
    requires k in m && m[k] == v
    ensures m[k := v] == m
  {
  }

  // ----- the start

  /** Two GPUs on one node, one on another, and nothing registered yet. */
  const NODE := "n"
  const OTHER := "m"
  const GPUS: map<Slot, set<string>> := map[(NODE, 0) := {}, (NODE, 1) := {}, (OTHER, 0) := {}]
  const READY := View(map[], {}, map[], map[], map[], GPUS, map[NODE := map[], OTHER := map[]])

  ghost function Booting(): Data {
    INIT.data.(nodes := map[NODE := NewNode(NODE, 2), OTHER := NewNode(OTHER, 1)])
  }

  lemma NodeReady()
    ensures NodeAs(NewNode(NODE, 2), map[], NODE, GPUS, map[])
  {
    assert forall k: nat | k < 2 :: (NODE, k) in GPUS;
    NewNodeAs(NODE, 2, GPUS);
  }

  lemma OtherReady()
    ensures NodeAs(NewNode(OTHER, 1), map[], OTHER, GPUS, map[])
  {
    NewNodeAs(OTHER, 1, GPUS);
  }

  lemma ReadyNodes()
    ensures NodesAs(Booting().nodes, map[], GPUS, map[NODE := map[], OTHER := map[]])
  {
    NodeReady();
    OtherReady();
    TwoNodes(NODE, NewNode(NODE, 2), OTHER, NewNode(OTHER, 1), GPUS);
  }

  lemma TwoNodes(n: string, g: Manager<Ref>, n': string, g': Manager<Ref>, held: map<Slot, set<string>>)
    requires n != n' && NodeAs(g, map[], n, held, map[]) && NodeAs(g', map[], n', held, map[])
    ensures NodesAs(map[n := g, n' := g'], map[], held, map[n := map[], n' := map[]])
  {
  }

  lemma ReadyShows()
    ensures Shows(Booting(), READY)
  {
    ReadyNodes();
  }

  lemma ReadyReached(ps: set<Promise>)
    ensures Reached(CFG, ps, map[], Booting())
  {
    ReachInit(CFG, ps);
    NewNodeBooted(NODE, 2);
    NewNodeBooted(OTHER, 1);
    Boot(CFG, ps, map[], INIT.data, NODE, NewNode(NODE, 2));
    var d := INIT.data.(nodes := INIT.data.nodes[NODE := NewNode(NODE, 2)]);
    Boot(CFG, ps, map[], d, OTHER, NewNode(OTHER, 1));
    assert d.nodes[OTHER := NewNode(OTHER, 1)] == Booting().nodes;
  }

  lemma Starts(ps: set<Promise>)
    ensures At(ps, map[], READY)
  {
    ReadyReached(ps);
    ReadyShows();
    assert Now(ps, map[], READY, Booting());
  }

  // ----- calls

  lemma Joins(ps: set<Promise>, threads: map<Tid, Pc>, w: View, t: Tid, n: string, endpoint: string, refs: seq<Ref>,
              added: map<Ref, Slot>)
    requires At(ps, threads, w) && t !in threads && n != "" && endpoint != "" && MayJoin(w, n, refs, added)
    requires n in w.endpoints ==> w.endpoints[n] != endpoint && AddedOnce !in ps
    ensures At(ps, threads[t := Done(OK)], Join(w, n, endpoint, added))
  {
    var d :| Now(ps, threads, w, d);
    JoinShows(d, w, n, endpoint, refs, added);
    JoinReports(d, w, n, refs, added);
    Register(CFG, ps, threads, d, t, NodeInfo(n, endpoint), Answer(n, |refs|), refs);
    assert Now(ps, threads[t := Done(OK)], Join(w, n, endpoint, added),
               Registered(d, NodeInfo(n, endpoint), Answer(n, |refs|), refs));
  }

  /** The device is listed, empty to the master, and has not got the name on its node. */
  ghost predicate Open(ps: set<Promise>, w: View, r: Ref, name: string) {
    && Seated(w, r) && w.counted[r] == {} && name !in w.held[w.seats[r]] && name != ""
    && (NoLiveName in ps ==> name !in w.index)
  }

  lemma EmptySeat(m: Master<Ref>, r: Ref, s: Slot)
    requires SeatAs(m, r, s, {})
    ensures Match(CFG.parse, m.store[r], WHOLE) == OK
  {
    assert m.store[r].volumes == map[];
    WholeMatches(m.store[r]);
  }

  lemma Chosen(d: Data, w: View, r: Ref)
    requires Shows(d, w) && Seated(w, r) && w.counted[r] == {}
    ensures Listed(d.master, w.seats[r].0, r) && r in d.master.store && w.seats[r].0 in d.clients
    ensures Match(CFG.parse, d.master.store[r], WHOLE) == OK
  {
    assert SeatAs(d.master, r, w.seats[r], w.counted[r]);
    EmptySeat(d.master, r, w.seats[r]);
  }

  lemma Calls(ps: set<Promise>, threads: map<Tid, Pc>, w: View, t: Tid, name: string, r: Ref, d: Data)
    requires Now(ps, threads, w, d) && t !in threads && Open(ps, w, r, name)
    ensures Reached(CFG, ps, threads[t := CrCall(Ask(name), w.seats[r].0, r)], d)
  {
    Chosen(d, w, r);
    CreateCalls(CFG, ps, threads, d, t, Ask(name), w.seats[r].0, r);
  }

  lemma CreateShows(d: Data, w: View, r: Ref, name: string)
    requires Shows(d, w) && Seated(w, r) && name !in w.held[w.seats[r]]
    ensures Possible(d, Allocated(Ask(name), w.seats[r].0, r))
    ensures Shows(AfterCreate(CFG, d, Ask(name), w.seats[r].0, r), Record(Accept(w, r, name), r, name))
  {
    AcceptShows(d, w, r, name);
    RecordShows(Apply(CFG, d, Allocated(Ask(name), w.seats[r].0, r)), Accept(w, r, name), r, w.seats[r].0, name);
  }

  lemma Created(ps: set<Promise>, threads: map<Tid, Pc>, w: View, t: Tid, name: string, r: Ref, d: Data)
    requires Now(ps, threads, w, d) && t !in threads && Open(ps, w, r, name)
    requires Possible(d, Allocated(Ask(name), w.seats[r].0, r))
    ensures Reached(CFG, ps, threads[t := Done(OK)], AfterCreate(CFG, d, Ask(name), w.seats[r].0, r))
    ensures Idle(CFG, threads[t := Done(OK)])
  {
    Calls(ps, threads, w, t, name, r, d);
    CreateSucceeds(CFG, ps, threads, d, t, Ask(name), w.seats[r].0, r);
  }

  /** A whole CreateVolume. */
  lemma Creates(ps: set<Promise>, threads: map<Tid, Pc>, w: View, t: Tid, name: string, r: Ref)
    requires At(ps, threads, w) && t !in threads && Open(ps, w, r, name)
    ensures At(ps, threads[t := Done(OK)], Record(Accept(w, r, name), r, name))
  {
    var d :| Now(ps, threads, w, d);
    CreateShows(d, w, r, name);
    Created(ps, threads, w, t, name, r, d);
    var d', w' := AfterCreate(CFG, d, Ask(name), w.seats[r].0, r), Record(Accept(w, r, name), r, name);
    assert Now(ps, threads[t := Done(OK)], w', d');
  }

  lemma Lost(ps: set<Promise>, threads: map<Tid, Pc>, w: View, t: Tid, name: string, r: Ref, d: Data)
    requires Now(ps, threads, w, d) && t !in threads && Open(ps, w, r, name) && NoLostReply !in ps
    requires Possible(d, Allocated(Ask(name), w.seats[r].0, r))
    ensures Reached(CFG, ps, threads[t := Done(Internal)], Apply(CFG, d, Allocated(Ask(name), w.seats[r].0, r)))
    ensures Idle(CFG, threads[t := Done(Internal)])
  {
    Calls(ps, threads, w, t, name, r, d);
    CreateLosesReply(CFG, ps, threads, d, t, Ask(name), w.seats[r].0, r);
  }

  /** The node accepts, and its reply is lost. */
  lemma LosesReply(ps: set<Promise>, threads: map<Tid, Pc>, w: View, t: Tid, name: string, r: Ref)
    requires At(ps, threads, w) && t !in threads && Open(ps, w, r, name) && NoLostReply !in ps
    ensures At(ps, threads[t := Done(Internal)], Accept(w, r, name))
  {
    var d :| Now(ps, threads, w, d);
    var n := w.seats[r].0;
    AcceptShows(d, w, r, name);
    Lost(ps, threads, w, t, name, r, d);
    var d', w' := Apply(CFG, d, Allocated(Ask(name), n, r)), Accept(w, r, name);
    assert Now(ps, threads[t := Done(Internal)], w', d');
  }

  /** DeleteVolume, up to its lock. */
  lemma Reads(ps: set<Promise>, threads: map<Tid, Pc>, w: View, t: Tid, name: string)
    requires At(ps, threads, w) && t !in threads && name != ""
    ensures At(ps, threads[t := if name in w.index then DeLock(name, w.index[name]) else Done(OK)], w)
  {
    var d :| Now(ps, threads, w, d);
    DeleteReads(CFG, ps, threads, d, t, name);
    assert Now(ps, threads[t := AfterRead(d.master, name)], w, d);
  }

  /** A deletion that has read device r and goes on. */
  ghost predicate Paused(threads: map<Tid, Pc>, w: View, t: Tid, name: string, r: Ref) {
    t in threads && threads[t] == DeLock(name, r) && Seated(w, r) && w.seats[r].0 in w.endpoints
  }

  predicate IsLive(w: View, name: string, r: Ref) {
    name in w.index && w.index[name] == r
  }

  lemma RoutesHome(d: Data, w: View, r: Ref)
    requires Shows(d, w) && Seated(w, r)
    ensures r in d.master.store && RefsOk(d.master)
    ensures RouteOutcome(d.master, d.master.store[r].id, Some(w.seats[r].0))
  {
    assert SeatAs(d.master, r, w.seats[r], w.counted[r]);
  }

  lemma DropsHome(d: Data, w: View, r: Ref, name: string)
    requires Shows(d, w) && Seated(w, r)
    ensures Possible(d, Dropped(name, r))
    ensures var d' := Apply(CFG, d, Dropped(name, r));
            && Shows(d', Drop(w, r, name)) && r in d'.master.store && RefsOk(d'.master)
            && RouteOutcome(d'.master, d'.master.store[r].id, Some(w.seats[r].0))
            && (w.seats[r].0 in w.endpoints ==> w.seats[r].0 in d'.clients)
  {
    DropShows(d, w, r, name);
    RoutesHome(Apply(CFG, d, Dropped(name, r)), Drop(w, r, name), r);
  }

  lemma Drops(ps: set<Promise>, threads: map<Tid, Pc>, w: View, t: Tid, name: string, r: Ref, d: Data)
    requires Now(ps, threads, w, d) && Paused(threads, w, t, name, r) && Possible(d, Dropped(name, r))
    ensures Reached(CFG, ps, threads[t := DeRoute(name, r, IsLive(w, name, r))], Apply(CFG, d, Dropped(name, r)))
  {
    Same(threads, t, DeLock(name, r));
    DeleteDrops(CFG, ps, threads, d, t, name, r, IsLive(w, name, r));
  }

  lemma Goes(ps: set<Promise>, threads: map<Tid, Pc>, w: View, t: Tid, name: string, r: Ref, d: Data)
    requires Now(ps, threads, w, d) && Paused(threads, w, t, name, r) && Possible(d, Dropped(name, r))
    ensures Reached(CFG, ps, threads[t := DeCall(name, r, IsLive(w, name, r), w.seats[r].0)],
                    Apply(CFG, d, Dropped(name, r)))
  {
    DropsHome(d, w, r, name);
    Drops(ps, threads, w, t, name, r, d);
    DeleteCalls(CFG, ps, threads, Apply(CFG, d, Dropped(name, r)), t, name, r, IsLive(w, name, r), w.seats[r].0);
  }

  lemma DeleteShows(d: Data, w: View, r: Ref, name: string)
    requires Shows(d, w) && Seated(w, r) && Binds(w, w.seats[r].0, name)
    ensures Possible(d, Dropped(name, r))
    ensures Possible(Apply(CFG, d, Dropped(name, r)), DeAllocated(name, w.seats[r].0))
    ensures Shows(AfterDelete(CFG, d, name, w.seats[r].0, r), Free(Drop(w, r, name), w.seats[r].0, name))
  {
    DropsHome(d, w, r, name);
    FreeShows(Apply(CFG, d, Dropped(name, r)), Drop(w, r, name), w.seats[r].0, name);
  }

  lemma Freed(ps: set<Promise>, threads: map<Tid, Pc>, w: View, t: Tid, name: string, r: Ref, d: Data)
    requires Now(ps, threads, w, d) && Paused(threads, w, t, name, r) && Possible(d, Dropped(name, r))
    requires Possible(Apply(CFG, d, Dropped(name, r)), DeAllocated(name, w.seats[r].0))
    ensures Reached(CFG, ps, threads[t := Done(OK)], AfterDelete(CFG, d, name, w.seats[r].0, r))
    ensures Idle(CFG, threads[t := Done(OK)])
  {
    Goes(ps, threads, w, t, name, r, d);
    DeleteSucceeds(CFG, ps, threads, Apply(CFG, d, Dropped(name, r)), t, name, r, IsLive(w, name, r), w.seats[r].0);
  }

  /** The node frees what it has bound to the name. */
  lemma Deletes(ps: set<Promise>, threads: map<Tid, Pc>, w: View, t: Tid, name: string, r: Ref)
    requires At(ps, threads, w) && Paused(threads, w, t, name, r) && Binds(w, w.seats[r].0, name)
    ensures At(ps, threads[t := Done(OK)], Free(Drop(w, r, name), w.seats[r].0, name))
  {
    var d :| Now(ps, threads, w, d);
    var n := w.seats[r].0;
    DeleteShows(d, w, r, name);
    Freed(ps, threads, w, t, name, r, d);
    var d', w' := AfterDelete(CFG, d, name, n, r), Free(Drop(w, r, name), n, name);
    assert Now(ps, threads[t := Done(OK)], w', d');
  }

  lemma Refuses(d: Data, w: View, n: string, name: string)
    requires Shows(d, w) && n in w.bound
    ensures Possible(d, DeAllocated(name, n)) <==> name in w.bound[n]
  {
    assert NodeAs(d.nodes[n], d.granted, n, w.held, w.bound[n]);
  }

  /** No promise keeps the deletion from freeing nothing. */
  predicate MayMiss(ps: set<Promise>, w: View, name: string, r: Ref)
    requires Seated(w, r)
  {
    (DeletesReach in ps ==> !IsLive(w, name, r)) && (DeletesArrive in ps ==> name !in w.bound[w.seats[r].0])
  }

  lemma MissShows(ps: set<Promise>, d: Data, w: View, r: Ref, name: string)
    requires Shows(d, w) && Seated(w, r) && MayMiss(ps, w, name, r)
    ensures Possible(d, Dropped(name, r)) && Shows(Apply(CFG, d, Dropped(name, r)), Drop(w, r, name))
    ensures Excused(ps, Apply(CFG, d, Dropped(name, r)), name, IsLive(w, name, r), w.seats[r].0)
  {
    DropsHome(d, w, r, name);
    Refuses(Apply(CFG, d, Dropped(name, r)), Drop(w, r, name), w.seats[r].0, name);
  }

  lemma Missed(ps: set<Promise>, threads: map<Tid, Pc>, w: View, t: Tid, name: string, r: Ref, code: Code, d: Data)
    requires Now(ps, threads, w, d) && Paused(threads, w, t, name, r) && code != OK && Possible(d, Dropped(name, r))
    requires Excused(ps, Apply(CFG, d, Dropped(name, r)), name, IsLive(w, name, r), w.seats[r].0)
    ensures Reached(CFG, ps, threads[t := Done(code)], Apply(CFG, d, Dropped(name, r)))
    ensures Idle(CFG, threads[t := Done(code)])
  {
    Goes(ps, threads, w, t, name, r, d);
    DeleteFails(CFG, ps, threads, Apply(CFG, d, Dropped(name, r)), t, name, r, IsLive(w, name, r), w.seats[r].0, code);
  }

  /** The node does not know the name, or the call does not reach it. */
  lemma Misses(ps: set<Promise>, threads: map<Tid, Pc>, w: View, t: Tid, name: string, r: Ref, code: Code)
    requires At(ps, threads, w) && Paused(threads, w, t, name, r) && code != OK && MayMiss(ps, w, name, r)
    ensures At(ps, threads[t := Done(code)], Drop(w, r, name))
  {
    var d :| Now(ps, threads, w, d);
    MissShows(ps, d, w, r, name);
    Missed(ps, threads, w, t, name, r, code, d);
    var d' := Apply(CFG, d, Dropped(name, r));
    assert Now(ps, threads[t := Done(code)], Drop(w, r, name), d');
  }
}
