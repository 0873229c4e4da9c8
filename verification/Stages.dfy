/** The views of the runs of Witnesses: two GPUs on one node and one on another, all registered. */
module Stages {
  import opened Devices
  import opened System
  import opened Reliability
  import opened Views
  import opened Scripts

  /** The master's index; the names it has on its devices 0 and 1, those of NODE, and 2, that of OTHER;
      the names the nodes have there; and the index of each node. */
  datatype Stage = Stage(index: map<string, Ref>,
                         c0: set<string>, c1: set<string>, c2: set<string>,
                         h0: set<string>, h1: set<string>, h2: set<string>,
                         b: map<string, nat>, b2: map<string, nat>)

  const SEATS: map<Ref, Slot> := map[0 := (NODE, 0), 1 := (NODE, 1), 2 := (OTHER, 0)]

  ghost predicate OnMaster(w: View, s: Stage) {
    && w.seats == SEATS && w.index == s.index
    && w.endpoints == map[NODE := "a", OTHER := "a"] && w.objects == {0, 1, 2}
    && 0 in w.counted && w.counted[0] == s.c0 && 1 in w.counted && w.counted[1] == s.c1
    && 2 in w.counted && w.counted[2] == s.c2
  }

  ghost predicate OnNodes(w: View, s: Stage) {
    && w.held.Keys == GPUS.Keys && w.held[(NODE, 0)] == s.h0 && w.held[(NODE, 1)] == s.h1 && w.held[(OTHER, 0)] == s.h2
    && NODE in w.bound && w.bound[NODE] == s.b && OTHER in w.bound && w.bound[OTHER] == s.b2
  }

  ghost predicate Is(w: View, s: Stage) {
    OnMaster(w, s) && OnNodes(w, s)
  }

  ghost predicate Comes(ps: set<Promise>, threads: map<Tid, Pc>, s: Stage, w: View) {
    At(ps, threads, w) && Is(w, s)
  }

  /** Some run that keeps the promises leads to these threads and to this stage. */
  ghost predicate On(ps: set<Promise>, threads: map<Tid, Pc>, s: Stage) {
    exists w :: Comes(ps, threads, s, w)
  }

  // ----- the four effects

  function Taking(s: Stage, r: Ref, name: string): Stage {
    if r == 0 then s.(h0 := s.h0 + {name}, b := s.b[name := 0])
    else if r == 1 then s.(h1 := s.h1 + {name}, b := s.b[name := 1])
    else s.(h2 := s.h2 + {name}, b2 := s.b2[name := 0])
  }

  function Counting(s: Stage, r: Ref, name: string): Stage {
    if r == 0 then s.(index := s.index[name := 0], c0 := s.c0 + {name})
    else if r == 1 then s.(index := s.index[name := 1], c1 := s.c1 + {name})
    else s.(index := s.index[name := 2], c2 := s.c2 + {name})
  }

  function Dropping(s: Stage, r: Ref, name: string): Stage {
    if r == 0 then s.(index := s.index - {name}, c0 := s.c0 - {name})
    else if r == 1 then s.(index := s.index - {name}, c1 := s.c1 - {name})
    else s.(index := s.index - {name}, c2 := s.c2 - {name})
  }

  /** The node of device r frees the device it has the name bound to, whether that is r or not. */
  function Freeing(s: Stage, r: Ref, name: string): Stage {
    if r == 2 then s.(h2 := s.h2 - {name}, b2 := s.b2 - {name})
    else if name in s.b && s.b[name] == 0 then s.(h0 := s.h0 - {name}, b := s.b - {name})
    else s.(h1 := s.h1 - {name}, b := s.b - {name})
  }

  lemma AllSeated(w: View, s: Stage, r: Ref)
    requires Is(w, s) && r < 3
    ensures Seated(w, r) && w.seats[r] == (if r == 2 then (OTHER, 0) else (NODE, r))
  {
  }

  lemma TakingOnNodes(w: View, s: Stage, r: Ref, name: string)
    requires OnNodes(w, s) && r < 3 && Seated(w, r) && w.seats[r] == (if r == 2 then (OTHER, 0) else (NODE, r))
    ensures OnNodes(Accept(w, r, name), Taking(s, r, name))
  {
  }

  lemma TakingIs(w: View, s: Stage, r: Ref, name: string)
    requires Is(w, s) && r < 3
    ensures Seated(w, r) && Is(Accept(w, r, name), Taking(s, r, name))
  {
    AllSeated(w, s, r);
    TakingOnNodes(w, s, r, name);
  }

  lemma CountingIs(w: View, s: Stage, r: Ref, name: string)
    requires Is(w, s) && r < 3
    ensures Is(Record(w, r, name), Counting(s, r, name))
  {
  }

  lemma DroppingIs(w: View, s: Stage, r: Ref, name: string)
    requires Is(w, s) && r < 3
    ensures Is(Drop(w, r, name), Dropping(s, r, name))
  {
  }

  function HeldBy(s: Stage, r: Ref): set<string> {
    if r == 0 then s.h0 else if r == 1 then s.h1 else s.h2
  }

  function CountedOn(s: Stage, r: Ref): set<string> {
    if r == 0 then s.c0 else if r == 1 then s.c1 else s.c2
  }

  function BoundAt(s: Stage, r: Ref): map<string, nat> {
    if r == 2 then s.b2 else s.b
  }

  /** The node of device r has the name, on a device it has. */
  predicate Knows(s: Stage, r: Ref, name: string) {
    name in BoundAt(s, r) && BoundAt(s, r)[name] < (if r == 2 then 1 else 2)
  }

  lemma BindsName(w: View, s: Stage, r: Ref, name: string)
    requires Is(w, s) && r < 3 && Knows(s, r, name)
    ensures Seated(w, r) && w.seats[r].0 == (if r == 2 then OTHER else NODE) && Binds(w, w.seats[r].0, name)
  {
  }

  lemma FreeingHere(w: View, s: Stage, r: Ref, name: string)
    requires Is(w, s) && r < 2 && Knows(s, r, name) && Binds(w, NODE, name)
    ensures Is(Free(w, NODE, name), Freeing(s, r, name))
  {
  }

  lemma FreeingThere(w: View, s: Stage, name: string)
    requires Is(w, s) && Knows(s, 2, name) && Binds(w, OTHER, name)
    ensures Is(Free(w, OTHER, name), Freeing(s, 2, name))
  {
  }

  lemma FreeingIs(w: View, s: Stage, r: Ref, name: string)
    requires Is(w, s) && r < 3 && Knows(s, r, name)
    ensures Seated(w, r) && Binds(w, w.seats[r].0, name) && Is(Free(w, w.seats[r].0, name), Freeing(s, r, name))
  {
    BindsName(w, s, r, name);
    if r == 2 {
      FreeingThere(w, s, name);
    } else {
      FreeingHere(w, s, r, name);
    }
  }

  lemma DeletingIs(w: View, s: Stage, r: Ref, name: string)
    requires Is(w, s) && r < 3 && Knows(s, r, name)
    ensures Seated(w, r) && Binds(w, w.seats[r].0, name)
    ensures Is(Free(Drop(w, r, name), w.seats[r].0, name), Freeing(Dropping(s, r, name), r, name))
  {
    FreeingIs(w, s, r, name);
    DroppingIs(w, s, r, name);
    assert Knows(Dropping(s, r, name), r, name);
    FreeingIs(Drop(w, r, name), Dropping(s, r, name), r, name);
  }

  // ----- calls

  /** The master takes device r for empty, and its node has not got the name there. */
  predicate Fit(ps: set<Promise>, s: Stage, r: Ref, name: string) {
    r < 3 && name != "" && CountedOn(s, r) == {} && name !in HeldBy(s, r) && (NoLiveName in ps ==> name !in s.index)
  }

  lemma FitOpens(ps: set<Promise>, w: View, s: Stage, r: Ref, name: string)
    requires Is(w, s) && Fit(ps, s, r, name)
    ensures Open(ps, w, r, name)
  {
  }

  /** CreateVolume on device r. */
  lemma Create(ps: set<Promise>, threads: map<Tid, Pc>, s: Stage, t: Tid, name: string, r: Ref)
    requires On(ps, threads, s) && t !in threads && Fit(ps, s, r, name)
    ensures On(ps, threads[t := Done(OK)], Counting(Taking(s, r, name), r, name))
  {
    var w :| Comes(ps, threads, s, w);
    FitOpens(ps, w, s, r, name);
    Creates(ps, threads, w, t, name, r);
    TakingIs(w, s, r, name);
    CountingIs(Accept(w, r, name), Taking(s, r, name), r, name);
    assert Comes(ps, threads[t := Done(OK)], Counting(Taking(s, r, name), r, name),
        Record(Accept(w, r, name), r, name));
  }

  /** CreateVolume on device r, accepted, with its reply lost. */
  lemma CreateInVain(ps: set<Promise>, threads: map<Tid, Pc>, s: Stage, t: Tid, name: string, r: Ref)
    requires On(ps, threads, s) && t !in threads && Fit(ps, s, r, name) && NoLostReply !in ps
    ensures On(ps, threads[t := Done(Internal)], Taking(s, r, name))
  {
    var w :| Comes(ps, threads, s, w);
    FitOpens(ps, w, s, r, name);
    LosesReply(ps, threads, w, t, name, r);
    TakingIs(w, s, r, name);
    assert Comes(ps, threads[t := Done(Internal)], Taking(s, r, name), Accept(w, r, name));
  }

  function Read(s: Stage, name: string): Pc {
    if name in s.index then DeLock(name, s.index[name]) else Done(OK)
  }

  lemma ReadIs(w: View, s: Stage, name: string)
    requires Is(w, s)
    ensures (if name in w.index then DeLock(name, w.index[name]) else Done(OK)) == Read(s, name)
  {
  }

  /** DeleteVolume, up to its lock. */
  lemma StartDelete(ps: set<Promise>, threads: map<Tid, Pc>, s: Stage, t: Tid, name: string)
    requires On(ps, threads, s) && t !in threads && name != ""
    ensures On(ps, threads[t := Read(s, name)], s)
  {
    var w :| Comes(ps, threads, s, w);
    Reads(ps, threads, w, t, name);
    ReadIs(w, s, name);
    assert Comes(ps, threads[t := Read(s, name)], s, w);
  }

  predicate Waits(threads: map<Tid, Pc>, t: Tid, name: string, r: Ref) {
    t in threads && threads[t] == DeLock(name, r) && r < 3
  }

  lemma WaitsPaused(threads: map<Tid, Pc>, w: View, s: Stage, t: Tid, name: string, r: Ref)
    requires Is(w, s) && Waits(threads, t, name, r)
    ensures Paused(threads, w, t, name, r)
  {
  }

  /** It goes on, and the node of device r frees a volume. */
  lemma FinishDelete(ps: set<Promise>, threads: map<Tid, Pc>, s: Stage, t: Tid, name: string, r: Ref)
    requires On(ps, threads, s) && Waits(threads, t, name, r) && Knows(s, r, name)
    ensures On(ps, threads[t := Done(OK)], Freeing(Dropping(s, r, name), r, name))
  {
    var w :| Comes(ps, threads, s, w);
    WaitsPaused(threads, w, s, t, name, r);
    DeletingIs(w, s, r, name);
    Deletes(ps, threads, w, t, name, r);
    assert Comes(ps, threads[t := Done(OK)], Freeing(Dropping(s, r, name), r, name),
                 Free(Drop(w, r, name), w.seats[r].0, name));
  }

  /** No promise keeps the node of device r from failing to free the name. */
  predicate MayFail(ps: set<Promise>, s: Stage, name: string, r: Ref) {
    (DeletesReach in ps ==> Read(s, name) != DeLock(name, r)) && (DeletesArrive in ps ==> name !in BoundAt(s, r))
  }

  lemma MissAllowed(ps: set<Promise>, threads: map<Tid, Pc>, w: View, s: Stage, t: Tid, name: string, r: Ref)
    requires Is(w, s) && Waits(threads, t, name, r) && MayFail(ps, s, name, r)
    ensures Paused(threads, w, t, name, r) && MayMiss(ps, w, name, r) && Is(Drop(w, r, name), Dropping(s, r, name))
  {
    WaitsPaused(threads, w, s, t, name, r);
    DroppingIs(w, s, r, name);
  }

  lemma DropsTo(ps: set<Promise>, threads: map<Tid, Pc>, s: Stage, name: string, r: Ref, w: View)
    requires Seated(w, r) && At(ps, threads, Drop(w, r, name)) && Is(Drop(w, r, name), Dropping(s, r, name))
    ensures On(ps, threads, Dropping(s, r, name))
  {
    assert Comes(ps, threads, Dropping(s, r, name), Drop(w, r, name));
  }

  lemma FailsTo(ps: set<Promise>, threads: map<Tid, Pc>, s: Stage, t: Tid, name: string, r: Ref, code: Code, w: View)
    requires At(ps, threads, w) && Paused(threads, w, t, name, r) && code != OK
    requires MayMiss(ps, w, name, r) && Is(Drop(w, r, name), Dropping(s, r, name))
    ensures On(ps, threads[t := Done(code)], Dropping(s, r, name))
  {
    Misses(ps, threads, w, t, name, r, code);
    DropsTo(ps, threads[t := Done(code)], s, name, r, w);
  }

  /** It goes on, and the node does not know the name, or is not reached. */
  lemma FailDelete(ps: set<Promise>, threads: map<Tid, Pc>, s: Stage, t: Tid, name: string, r: Ref, code: Code)
    requires On(ps, threads, s) && Waits(threads, t, name, r) && code != OK && MayFail(ps, s, name, r)
    ensures On(ps, threads[t := Done(code)], Dropping(s, r, name))
  {
    var w :| Comes(ps, threads, s, w);
    MissAllowed(ps, threads, w, s, t, name, r);
    FailsTo(ps, threads, s, t, name, r, code, w);
  }

  // ----- the start

  const HERE: map<Ref, Slot> := map[0 := (NODE, 0), 1 := (NODE, 1)]
  const THERE: map<Ref, Slot> := map[2 := (OTHER, 0)]

  const BARE := Stage(map[], {}, {}, {}, {}, {}, {}, map[], map[])
  const JOINED: map<Tid, Pc> := map[0 := Done(OK), 1 := Done(OK)]

  lemma HereJoins()
    ensures MayJoin(READY, NODE, [0, 1], HERE)
  {
  }

  lemma ThereJoins()
    ensures MayJoin(Join(READY, NODE, "a", HERE), OTHER, [2], THERE)
    ensures OTHER !in Join(READY, NODE, "a", HERE).endpoints
  {
  }

  lemma BareSeats()
    ensures JoinSeats(JoinSeats(map[], NODE, HERE), OTHER, THERE) == SEATS
  {
  }

  lemma BareCounted()
    ensures var counted := JoinCounted(HERE, JoinCounted(map[], map[], NODE, HERE), OTHER, THERE);
            counted.Keys == {0, 1, 2} && counted[0] == {} && counted[1] == {} && counted[2] == {}
  {
  }

  lemma HereSeats()
    ensures JoinSeats(map[], NODE, HERE) == HERE
  {
  }

  lemma BareMaster()
    ensures OnMaster(Join(Join(READY, NODE, "a", HERE), OTHER, "a", THERE), BARE)
  {
    HereSeats();
    BareSeats();
    BareCounted();
  }

  lemma ReadyNodes()
    ensures OnNodes(READY, BARE)
  {
  }

  lemma JoinsOnNodes(w: View, s: Stage, n: string, added: map<Ref, Slot>)
    requires OnNodes(w, s)
    ensures OnNodes(Join(w, n, "a", added), s)
  {
  }

  lemma BareNodes()
    ensures OnNodes(Join(Join(READY, NODE, "a", HERE), OTHER, "a", THERE), BARE)
  {
    ReadyNodes();
    JoinsOnNodes(READY, BARE, NODE, HERE);
    JoinsOnNodes(Join(READY, NODE, "a", HERE), BARE, OTHER, THERE);
  }

  lemma HereOpens(ps: set<Promise>)
    ensures At(ps, map[0 := Done(OK)], Join(READY, NODE, "a", HERE))
  {
    Starts(ps);
    HereJoins();
    Joins(ps, map[], READY, 0, NODE, "a", [0, 1], HERE);
    assert map[][0 := Done(OK)] == map[0 := Done(OK)];
  }

  lemma JoinedCalls()
    ensures 1 !in map[0 := Done(OK)] && map[0 := Done(OK)][1 := Done(OK)] == JOINED
  {
  }

  lemma ThereOpens(ps: set<Promise>, w: View)
    requires At(ps, map[0 := Done(OK)], w) && MayJoin(w, OTHER, [2], THERE) && OTHER !in w.endpoints
    ensures At(ps, JOINED, Join(w, OTHER, "a", THERE))
  {
    JoinedCalls();
    Joins(ps, map[0 := Done(OK)], w, 1, OTHER, "a", [2], THERE);
  }

  /** Both nodes register. */
  lemma Opening(ps: set<Promise>)
    ensures On(ps, JOINED, BARE)
  {
    HereOpens(ps);
    ThereJoins();
    ThereOpens(ps, Join(READY, NODE, "a", HERE));
    BareMaster();
    BareNodes();
    assert Comes(ps, JOINED, BARE, Join(Join(READY, NODE, "a", HERE), OTHER, "a", THERE));
  }
}
