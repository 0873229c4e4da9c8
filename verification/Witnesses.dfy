/** Runs that reach what Boundaries describes. Each keeps all promises but those it is about. */
module Witnesses {
  import opened Devices
  import opened System
  import opened Reliability
  import opened RoundTrip
  import opened Reach
  import opened EndToEnd
  import opened Boundaries
  import opened Views
  import opened Scripts
  import opened Stages

  const EVERY: set<Promise> :=
    {HonestNodes, AddedOnce, NoRestart, NoLostReply, DeletesReach, DeletesArrive, NoLiveName}

  /** A state that such a run reaches, and what the stage says of it. */
  lemma Arrive(ps: set<Promise>, threads: map<Tid, Pc>, s: Stage) returns (d: Data, w: View)
    requires On(ps, threads, s)
    ensures Now(ps, threads, w, d) && Is(w, s)
  {
    w :| Comes(ps, threads, s, w);
    d := ArriveAt(ps, threads, w);
  }

  lemma ArriveAt(ps: set<Promise>, threads: map<Tid, Pc>, w: View) returns (d: Data)
    requires At(ps, threads, w)
    ensures Now(ps, threads, w, d)
  {
    d :| Now(ps, threads, w, d);
  }

  ghost predicate AllOk(threads: map<Tid, Pc>) {
    forall t | t in threads :: threads[t] == Done(OK)
  }

  lemma TwoMembers<T>(s: set<T>, x: T, y: T)
    requires x in s && y in s && x != y
    ensures |s| > 1
  {
    assert |s - {x}| == |s| - 1;
    assert y in s - {x};
  }

  /** Device 0 of NODE holds two volumes. */
  lemma Overcommits0(d: Data, w: View, s: Stage)
    requires Shows(d, w) && Is(w, s) && "x" in s.h0 && "y" in s.h0
    ensures Overcommitted(d, (NODE, 0))
  {
    Holds0(w, s);
    TwoMembers(s.h0, "x", "y");
    Overcommits(d, w, (NODE, 0));
  }

  lemma Holds0(w: View, s: Stage)
    requires Is(w, s)
    ensures (NODE, 0) in w.held && w.held[(NODE, 0)] == s.h0
  {
  }

  // ----- one volume

  const ONE := Counting(Taking(BARE, 0, "x"), 0, "x")
  const T3: map<Tid, Pc> := JOINED[2 := Done(OK)]
  const T4: map<Tid, Pc> := T3[3 := Done(OK)]

  lemma BareFits(ps: set<Promise>, r: Ref)
    requires r < 3
    ensures Fit(ps, BARE, r, "x")
  {
  }

  lemma Threads()
    ensures 2 !in JOINED && 3 !in T3 && 4 !in T4 && AllOk(T3) && AllOk(T4) && AllOk(T4[4 := Done(OK)])
  {
  }

  lemma OneVolume(ps: set<Promise>)
    ensures On(ps, T3, ONE)
  {
    Opening(ps);
    BareFits(ps, 0);
    Threads();
    Create(ps, JOINED, BARE, 2, "x", 0);
  }

  // ----- creating a live name

  const TWICE := Counting(Taking(ONE, 1, "x"), 1, "x")

  lemma OneFits(ps: set<Promise>)
    requires NoLiveName !in ps
    ensures Fit(ps, ONE, 1, "x")
  {
  }

  lemma Twice(ps: set<Promise>)
    requires NoLiveName !in ps
    ensures On(ps, T4, TWICE)
  {
    OneVolume(ps);
    OneFits(ps);
    Threads();
    Create(ps, T3, ONE, 3, "x", 1);
  }

  lemma OnBothDevices(d: Data, w: View)
    requires Shows(d, w) && Is(w, TWICE)
    ensures d.master.store.Keys == {0, 1, 2} && d.master.store[0].id != d.master.store[1].id
    ensures "x" in d.master.store[0].volumes && "x" in d.master.store[1].volumes
  {
    SeatShown(d, w, 0);
    SeatShown(d, w, 1);
    IdsDiffer((NODE, 0), (NODE, 1));
  }

  /** CreateVolume("x") twice: both calls succeed, and the second returns the other device. */
  lemma RepeatedCreateRun() returns (threads: map<Tid, Pc>, d: Data)
    ensures Reached(CFG, EVERY - {NoLiveName}, threads, d) && AllOk(threads)
    ensures d.master.store.Keys == {0, 1, 2} && d.master.store[0].id != d.master.store[1].id
    ensures "x" in d.master.store[0].volumes && "x" in d.master.store[1].volumes
  {
    var w;
    Twice(EVERY - {NoLiveName});
    d, w := Arrive(EVERY - {NoLiveName}, T4, TWICE);
    OnBothDevices(d, w);
    Threads();
    threads := T4;
  }

  // ----- adding a node again

  const AGAIN: map<Ref, Slot> := map[3 := (NODE, 0), 4 := (NODE, 1)]

  lemma ReaddMay(w: View)
    requires Is(w, ONE)
    ensures MayJoin(w, NODE, [3, 4], AGAIN) && NODE in w.endpoints && w.endpoints[NODE] == "a"
  {
  }

  /** Device 0 of NODE has "x", and object 3, which stands for it now, has nothing. */
  ghost predicate Readded(w: View) {
    && NODE in w.endpoints && w.endpoints[NODE] == "b" && "y" !in w.index
    && Seated(w, 3) && w.seats[3] == (NODE, 0) && w.counted[3] == {} && w.held[(NODE, 0)] == {"x"}
  }

  lemma ReaddedIs(w: View)
    requires Is(w, ONE)
    ensures Readded(Join(w, NODE, "b", AGAIN))
  {
  }

  lemma Readds(ps: set<Promise>) returns (w': View)
    requires On(ps, T3, ONE) && AddedOnce !in ps
    ensures At(ps, T4, w') && Readded(w')
  {
    var w :| Comes(ps, T3, ONE, w);
    ReaddMay(w);
    ReaddedIs(w);
    w' := Join(w, NODE, "b", AGAIN);
    ReaddJoins(ps, w);
  }

  lemma ReaddJoins(ps: set<Promise>, w: View)
    requires At(ps, T3, w) && AddedOnce !in ps && MayJoin(w, NODE, [3, 4], AGAIN)
    requires NODE in w.endpoints && w.endpoints[NODE] == "a"
    ensures At(ps, T4, Join(w, NODE, "b", AGAIN))
  {
    Threads();
    Joins(ps, T3, w, 3, NODE, "b", [3, 4], AGAIN);
  }

  lemma ReaddShows(ps: set<Promise>, threads: map<Tid, Pc>, d: Data, w: View)
    requires Readded(w) && Now(ps, threads, Record(Accept(w, 3, "y"), 3, "y"), d)
    ensures NODE in d.clients && d.clients[NODE].endpoint == "b" && Overcommitted(d, (NODE, 0))
  {
    var w' := Record(Accept(w, 3, "y"), 3, "y");
    TwoMembers(w'.held[(NODE, 0)], "x", "y");
    Overcommits(d, w', (NODE, 0));
  }

  lemma ReaddOpens(ps: set<Promise>, w: View)
    requires Readded(w)
    ensures Open(ps, w, 3, "y")
  {
  }

  lemma ReaddCreates(ps: set<Promise>, w: View) returns (d: Data)
    requires At(ps, T4, w) && Readded(w)
    ensures Reached(CFG, ps, T4[4 := Done(OK)], d)
    ensures NODE in d.clients && d.clients[NODE].endpoint == "b" && Overcommitted(d, (NODE, 0))
  {
    Threads();
    ReaddOpens(ps, w);
    Creates(ps, T4, w, 4, "y", 3);
    d := ArriveAt(ps, T4[4 := Done(OK)], Record(Accept(w, 3, "y"), 3, "y"));
    ReaddShows(ps, T4[4 := Done(OK)], d, w);
  }

  /** NODE registers again under another endpoint: every call succeeds, and device 0 is given out twice. */
  lemma ReaddRun() returns (threads: map<Tid, Pc>, d: Data)
    ensures Reached(CFG, EVERY - {AddedOnce}, threads, d) && AllOk(threads)
    ensures NODE in d.clients && d.clients[NODE].endpoint == "b" && Overcommitted(d, (NODE, 0))
  {
    OneVolume(EVERY - {AddedOnce});
    var w := Readds(EVERY - {AddedOnce});
    d := ReaddCreates(EVERY - {AddedOnce}, w);
    Threads();
    threads := T4[4 := Done(OK)];
  }

  // ----- a reply lost, and a deletion lost

  /** The node has "x" on device 0, and the master has not heard of it. */
  ghost predicate Orphaned(d: Data) {
    && NODE in d.nodes && "x" in d.nodes[NODE].byVolume
    && "x" !in d.master.byVolume && forall r | r in d.master.store :: "x" !in d.master.store[r].volumes
  }

  lemma NoneCounted(w: View, s: Stage, r: Ref)
    requires OnMaster(w, s) && s.c0 == s.c1 == s.c2 == {} && r in w.objects
    ensures r in w.seats && r in w.counted && w.counted[r] == {}
  {
  }

  lemma NotCounted(d: Data, w: View, s: Stage, r: Ref)
    requires Shows(d, w) && OnMaster(w, s) && s.c0 == s.c1 == s.c2 == {} && r in d.master.store
    ensures "x" !in d.master.store[r].volumes
  {
    NoneCounted(w, s, r);
    SeatShown(d, w, r);
  }

  lemma NeverCounted(d: Data, w: View, s: Stage)
    requires Shows(d, w) && OnMaster(w, s) && s.c0 == s.c1 == s.c2 == {}
    ensures forall r | r in d.master.store :: "x" !in d.master.store[r].volumes
  {
    forall r | r in d.master.store ensures "x" !in d.master.store[r].volumes {
      NotCounted(d, w, s, r);
    }
  }

  lemma OrphanShows(d: Data, w: View, s: Stage)
    requires Shows(d, w) && Is(w, s) && s.index == map[] && s.c0 == s.c1 == s.c2 == {} && "x" in s.b
    ensures Orphaned(d)
  {
    NodeShown(d, w, NODE);
    NeverCounted(d, w, s);
  }

  /** Then a create of "y" lands on device 0. */
  lemma OrphanedThenMore(ps: set<Promise>, threads: map<Tid, Pc>, s: Stage, t: Tid) returns (before: Data, after: Data)
    requires On(ps, threads, s) && t !in threads && Fit(ps, s, 0, "y") && "x" in s.h0
    requires s.index == map[] && s.c0 == s.c1 == s.c2 == {} && "x" in s.b
    ensures Reached(CFG, ps, threads, before) && Orphaned(before)
    ensures Reached(CFG, ps, threads[t := Done(OK)], after) && Overcommitted(after, (NODE, 0))
  {
    var w, w';
    before, w := Arrive(ps, threads, s);
    OrphanShows(before, w, s);
    Create(ps, threads, s, t, "y", 0);
    after, w' := Arrive(ps, threads[t := Done(OK)], Counting(Taking(s, 0, "y"), 0, "y"));
    Overcommits0(after, w', Counting(Taking(s, 0, "y"), 0, "y"));
  }

  const LOST := Taking(BARE, 0, "x")
  const L3: map<Tid, Pc> := JOINED[2 := Done(Internal)]
  const L4: map<Tid, Pc> := L3[3 := Done(OK)]

  lemma LostThreads()
    ensures 2 !in JOINED && 3 !in L3 && 4 !in L4
  {
  }

  lemma LostStage(ps: set<Promise>)
    ensures Fit(ps, BARE, 0, "x") && Fit(ps, LOST, 0, "y") && Read(LOST, "x") == Done(OK) && "x" in LOST.h0
    ensures LOST.index == map[] && LOST.c0 == LOST.c1 == LOST.c2 == {} && "x" in LOST.b
  {
  }

  lemma LostCreate(ps: set<Promise>)
    requires NoLostReply !in ps
    ensures On(ps, L3, LOST)
  {
    Opening(ps);
    LostThreads();
    LostStage(ps);
    CreateInVain(ps, JOINED, BARE, 2, "x", 0);
  }

  lemma LostOn(ps: set<Promise>)
    requires NoLostReply !in ps
    ensures On(ps, L4, LOST)
  {
    LostCreate(ps);
    LostThreads();
    LostStage(ps);
    StartDelete(ps, L3, LOST, 3, "x");
  }

  /** The node accepts "x" and its reply is lost; DeleteVolume("x") is answered OK, the node still holds the
      volume, and the next create overcommits its device. */
  lemma LostReplyRun() returns (before: Data, after: Data)
    ensures L4[2] == Done(Internal) && L4[3] == Done(OK)
    ensures Reached(CFG, EVERY - {NoLostReply}, L4, before) && Orphaned(before)
    ensures Reached(CFG, EVERY - {NoLostReply}, L4[4 := Done(OK)], after) && Overcommitted(after, (NODE, 0))
  {
    LostOn(EVERY - {NoLostReply});
    LostThreads();
    LostStage(EVERY - {NoLostReply});
    before, after := OrphanedThenMore(EVERY - {NoLostReply}, L4, LOST, 4);
  }

  const FORGOTTEN := Dropping(ONE, 0, "x")
  const F4: map<Tid, Pc> := T3[3 := Done(Unavailable)]
  const WAITING: map<Tid, Pc> := T3[3 := DeLock("x", 0)]

  lemma ForgottenThreads()
    ensures 3 !in T3 && Waits(WAITING, 3, "x", 0) && WAITING[3 := Done(Unavailable)] == F4 && 4 !in F4
  {
  }

  lemma ForgottenStage(ps: set<Promise>)
    ensures Read(ONE, "x") == DeLock("x", 0) && Fit(ps, FORGOTTEN, 0, "y") && "x" in FORGOTTEN.h0
    ensures FORGOTTEN.index == map[] && FORGOTTEN.c0 == FORGOTTEN.c1 == FORGOTTEN.c2 == {} && "x" in FORGOTTEN.b
  {
  }

  lemma OneIsRead()
    ensures 3 !in T3 && Read(ONE, "x") == DeLock("x", 0)
  {
  }

  lemma WaitingOn(ps: set<Promise>)
    ensures On(ps, WAITING, ONE)
  {
    OneVolume(ps);
    OneIsRead();
    StartDelete(ps, T3, ONE, 3, "x");
  }

  lemma ForgottenOn(ps: set<Promise>)
    requires DeletesReach !in ps && DeletesArrive !in ps
    ensures On(ps, F4, FORGOTTEN)
  {
    WaitingOn(ps);
    ForgottenThreads();
    FailDelete(ps, WAITING, ONE, 3, "x", 0, Unavailable);
  }

  /** DeleteVolume("x") does not get through to the node: it still holds the volume, of which the master has
      no trace left, and the next create overcommits the device. */
  lemma UnreachedDeleteRun() returns (before: Data, after: Data)
    ensures F4[3] == Done(Unavailable)
    ensures Reached(CFG, EVERY - {DeletesReach, DeletesArrive}, F4, before) && Orphaned(before)
    ensures Reached(CFG, EVERY - {DeletesReach, DeletesArrive}, F4[4 := Done(OK)], after)
    ensures Overcommitted(after, (NODE, 0))
  {
    ForgottenOn(EVERY - {DeletesReach, DeletesArrive});
    ForgottenThreads();
    ForgottenStage(EVERY - {DeletesReach, DeletesArrive});
    before, after := OrphanedThenMore(EVERY - {DeletesReach, DeletesArrive}, F4, FORGOTTEN, 4);
  }

  // ----- a restart

  lemma NewNodeEmpty(name: string)
    ensures UnknownToNode(NewNode(NODE, 2), name)
  {
  }

  lemma OneIndexed(d: Data, w: View)
    requires Shows(d, w) && Is(w, ONE)
    ensures "x" in d.master.byVolume
  {
  }

  /** NODE restarts: the master holds "x", and the node does not know it. */
  lemma RestartRun() returns (d: Data)
    ensures Reached(CFG, EVERY - {NoRestart}, T3, d) && AllOk(T3) && "x" in d.master.byVolume
    ensures NODE in d.nodes && UnknownToNode(d.nodes[NODE], "x")
  {
    var d1, w;
    OneVolume(EVERY - {NoRestart});
    d1, w := Arrive(EVERY - {NoRestart}, T3, ONE);
    OneIndexed(d1, w);
    Threads();
    d := Restarts(EVERY - {NoRestart}, d1);
  }

  lemma Restarts(ps: set<Promise>, d: Data) returns (d': Data)
    requires Reached(CFG, ps, T3, d) && NoRestart !in ps
    ensures Reached(CFG, ps, T3, d') && d'.master == d.master
    ensures NODE in d'.nodes && UnknownToNode(d'.nodes[NODE], "x")
  {
    NewNodeBooted(NODE, 2);
    NewNodeEmpty("x");
    Boot(CFG, ps, T3, d, NODE, NewNode(NODE, 2));
    d' := d.(nodes := d.nodes[NODE := NewNode(NODE, 2)]);
  }

  // ----- a deletion with a device read too early

  const GONE := Freeing(Dropping(ONE, 0, "x"), 0, "x")
  const MOVED := Counting(Taking(GONE, 1, "x"), 1, "x")
  const LEAK := Freeing(Dropping(MOVED, 0, "x"), 0, "x")
  const S5: map<Tid, Pc> := WAITING[4 := DeLock("x", 0)]
  const S5d: map<Tid, Pc> := S5[4 := Done(OK)]
  const S6: map<Tid, Pc> := S5d[5 := Done(OK)]

  lemma StaleThreads()
    ensures 4 !in WAITING && Waits(S5, 4, "x", 0) && 5 !in S5d && Waits(S6, 3, "x", 0) && AllOk(S6[3 := Done(OK)])
  {
  }

  lemma StaleStages(ps: set<Promise>)
    ensures Read(ONE, "x") == DeLock("x", 0) && Knows(ONE, 0, "x")
    ensures Fit(ps, GONE, 1, "x") && Knows(MOVED, 0, "x")
  {
  }

  lemma BothWait(ps: set<Promise>)
    ensures On(ps, S5, ONE)
  {
    WaitingOn(ps);
    StaleThreads();
    StaleStages(ps);
    StartDelete(ps, WAITING, ONE, 4, "x");
  }

  lemma GoneOn(ps: set<Promise>)
    ensures On(ps, S5d, GONE)
  {
    BothWait(ps);
    StaleThreads();
    StaleStages(ps);
    FinishDelete(ps, S5, ONE, 4, "x", 0);
  }

  lemma MovedOn(ps: set<Promise>)
    ensures On(ps, S6, MOVED)
  {
    GoneOn(ps);
    StaleThreads();
    StaleStages(ps);
    Create(ps, S5d, GONE, 5, "x", 1);
  }

  lemma LeakOn(ps: set<Promise>)
    ensures On(ps, S6[3 := Done(OK)], LEAK)
  {
    MovedOn(ps);
    StaleThreads();
    StaleStages(ps);
    FinishDelete(ps, S6, MOVED, 3, "x", 0);
  }

  /** The master counts "x" on device 1, no name leads to it, and the node has nothing there. */
  ghost predicate Leaked(d: Data) {
    && 1 in d.master.store && d.master.store[1].id == IdOf((NODE, 1)) && "x" in d.master.store[1].volumes
    && "x" !in d.master.byVolume && NODE in d.nodes && d.nodes[NODE].byVolume == map[]
    && Grants(d.granted, IdOf((NODE, 1))) == map[]
  }

  lemma LeakStage()
    ensures LEAK.index == map[] && "x" in LEAK.c1 && LEAK.b == map[] && LEAK.h1 == {}
  {
  }

  lemma NoKeys<K, V>(m: map<K, V>)
    requires m.Keys == {}
    ensures m == map[]
  {
  }

  lemma LeakShows(d: Data, w: View)
    requires Shows(d, w) && Is(w, LEAK)
    ensures Leaked(d)
  {
    LeakSeats(w);
    SeatShown(d, w, 1);
    NodeShown(d, w, NODE);
    SlotShown(d, w, (NODE, 1));
    NoKeys(d.nodes[NODE].byVolume);
    NoKeys(Grants(d.granted, IdOf((NODE, 1))));
  }

  lemma LeakSeats(w: View)
    requires Is(w, LEAK)
    ensures 1 in w.seats && w.seats[1] == (NODE, 1) && 1 in w.counted && "x" in w.counted[1] && w.index == map[]
    ensures NODE in w.bound && w.bound[NODE] == map[] && (NODE, 1) in w.held && w.held[(NODE, 1)] == {}
  {
    LeakStage();
  }

  lemma LeakUnsettles(d: Data)
    requires Leaked(d)
    ensures !Settles(CFG, d)
  {
    assert !MasterSide(CFG, true, d, Settled, 1);
  }

  lemma NothingGranted(d: Data, w: View, x: Ref)
    requires Shows(d, w) && Is(w, LEAK) && x in d.master.store
    ensures Grants(d.granted, d.master.store[x].id).Keys == {}
  {
    NothingHeld(w, x);
    SeatShown(d, w, x);
    SlotShown(d, w, w.seats[x]);
  }

  lemma NothingCovers(d: Data, x: Ref)
    requires x in d.master.store && Grants(d.granted, d.master.store[x].id).Keys == {}
    ensures MasterSide(CFG, false, d, Settled, x)
  {
  }

  lemma NothingHeld(w: View, x: Ref)
    requires Is(w, LEAK) && x in w.objects
    ensures x in w.seats && w.seats[x] in w.held && w.held[w.seats[x]] == {}
  {
  }

  lemma LeakCovers(d: Data, w: View)
    requires Shows(d, w) && Is(w, LEAK)
    ensures Covers(CFG, d)
  {
    forall x | x in d.master.store ensures MasterSide(CFG, false, d, Settled, x) {
      NothingGranted(d, w, x);
      NothingCovers(d, x);
    }
  }

  /** DeleteVolume("x") reads device 0 and waits; another DeleteVolume("x") and a CreateVolume("x") on device 1
      run; the first goes on. Every promise is kept and every call is answered OK; the master counts enough,
      but device 1 is lost to it. */
  lemma StaleDeleteRun() returns (threads: map<Tid, Pc>, d: Data)
    ensures Reached(CFG, EVERY, threads, d) && AllOk(threads) && Leaked(d) && !Settles(CFG, d)
    ensures Covers(CFG, d)
  {
    var w;
    LeakOn(EVERY);
    threads := S6[3 := Done(OK)];
    d, w := Arrive(EVERY, threads, LEAK);
    LeakShows(d, w);
    LeakUnsettles(d);
    LeakCovers(d, w);
    StaleThreads();
  }

  // ----- two such deletions, and two nodes

  const A := Counting(Taking(BARE, 2, "x"), 2, "x")
  const A0 := Freeing(Dropping(A, 2, "x"), 2, "x")
  const B := Counting(Taking(A0, 0, "x"), 0, "x")
  const B0 := Dropping(B, 2, "x")
  const C := Counting(Taking(B0, 1, "x"), 1, "x")
  const C0 := Freeing(Dropping(C, 0, "x"), 0, "x")
  const FULL := Counting(Taking(C0, 0, "y"), 0, "y")

  lemma FirstStages(ps: set<Promise>)
    ensures Fit(ps, BARE, 2, "x") && Read(A, "x") == DeLock("x", 2) && Knows(A, 2, "x") && Fit(ps, A0, 0, "x")
  {
  }

  lemma SecondStages(ps: set<Promise>)
    ensures Read(B, "x") == DeLock("x", 0) && MayFail(ps, B, "x", 2) && Fit(ps, B0, 1, "x")
  {
  }

  lemma ThirdStages(ps: set<Promise>)
    ensures Knows(C, 0, "x") && Fit(ps, C0, 0, "y") && "x" in FULL.h0 && "y" in FULL.h0
  {
  }

  const P3: map<Tid, Pc> := T3[3 := DeLock("x", 2)]
  const P4: map<Tid, Pc> := P3[4 := DeLock("x", 2)]
  const P4d: map<Tid, Pc> := P4[4 := Done(OK)]
  const P5: map<Tid, Pc> := P4d[5 := Done(OK)]
  const P6: map<Tid, Pc> := P5[6 := DeLock("x", 0)]
  const P6d: map<Tid, Pc> := P6[3 := Done(Internal)]
  const P7: map<Tid, Pc> := P6d[7 := Done(OK)]
  const P7d: map<Tid, Pc> := P7[6 := Done(OK)]

  lemma FirstThreads()
    ensures 2 !in JOINED && 3 !in T3 && 4 !in P3 && Waits(P4, 4, "x", 2) && 5 !in P4d && 6 !in P5
  {
  }

  lemma LastThreads()
    ensures Waits(P6, 3, "x", 2) && 7 !in P6d && Waits(P7, 6, "x", 0) && 8 !in P7d
  {
  }

  /** "x" on OTHER; a deletion reads it and waits; another deletes it. */
  lemma AOn(ps: set<Promise>)
    ensures On(ps, T3, A)
  {
    Opening(ps);
    FirstThreads();
    FirstStages(ps);
    Create(ps, JOINED, BARE, 2, "x", 2);
  }

  lemma AReadOnce(ps: set<Promise>)
    ensures On(ps, P3, A)
  {
    AOn(ps);
    FirstThreads();
    FirstStages(ps);
    StartDelete(ps, T3, A, 3, "x");
  }

  lemma AReadTwice(ps: set<Promise>)
    ensures On(ps, P4, A)
  {
    AReadOnce(ps);
    FirstThreads();
    FirstStages(ps);
    StartDelete(ps, P3, A, 4, "x");
  }

  lemma A0On(ps: set<Promise>)
    ensures On(ps, P4d, A0)
  {
    AReadTwice(ps);
    FirstThreads();
    FirstStages(ps);
    FinishDelete(ps, P4, A, 4, "x", 2);
  }

  /** "x" on device 0 of NODE; a third deletion reads that and waits; the first goes on, and OTHER refuses. */
  lemma BOn(ps: set<Promise>)
    ensures On(ps, P5, B)
  {
    A0On(ps);
    FirstThreads();
    FirstStages(ps);
    Create(ps, P4d, A0, 5, "x", 0);
  }

  lemma BRead(ps: set<Promise>)
    ensures On(ps, P6, B)
  {
    BOn(ps);
    FirstThreads();
    SecondStages(ps);
    StartDelete(ps, P5, B, 6, "x");
  }

  lemma OtherRefuses(ps: set<Promise>)
    ensures Waits(P6, 3, "x", 2) && MayFail(ps, B, "x", 2)
  {
    LastThreads();
    SecondStages(ps);
  }

  lemma B0On(ps: set<Promise>)
    ensures On(ps, P6d, B0)
  {
    BRead(ps);
    OtherRefuses(ps);
    FailDelete(ps, P6, B, 3, "x", 2, Internal);
  }

  /** "x", of which the master's index says nothing, on device 1 of NODE as well; the third deletion goes on
      and drops "x" from device 0, and NODE frees device 1. */
  lemma COn(ps: set<Promise>)
    ensures On(ps, P7, C)
  {
    B0On(ps);
    LastThreads();
    SecondStages(ps);
    Create(ps, P6d, B0, 7, "x", 1);
  }

  lemma C0On(ps: set<Promise>)
    ensures On(ps, P7d, C0)
  {
    COn(ps);
    LastThreads();
    ThirdStages(ps);
    FinishDelete(ps, P7, C, 6, "x", 0);
  }

  lemma FullOn(ps: set<Promise>)
    ensures On(ps, P7d[8 := Done(OK)], FULL)
  {
    C0On(ps);
    LastThreads();
    ThirdStages(ps);
    Create(ps, P7d, C0, 8, "y", 0);
  }

  /** Two deletions of "x" that have read the devices of its former lives leave device 0 of NODE to a create of
      "y" while the node still has "x" there: every promise is kept, every call is answered by the node it
      goes to, and the node is overcommitted. */
  lemma TwoStaleDeletesRun() returns (threads: map<Tid, Pc>, d: Data)
    ensures Reached(CFG, EVERY, threads, d) && Overcommitted(d, (NODE, 0))
  {
    var w;
    FullOn(EVERY);
    threads := P7d[8 := Done(OK)];
    d, w := Arrive(EVERY, threads, FULL);
    ThirdStages(EVERY);
    Overcommits0(d, w, FULL);
  }
}
