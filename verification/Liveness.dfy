/** Every call ends, in any order of steps, as long as remote calls return. */
module Liveness {
  import opened Wrappers
  import opened Registry
  import opened System
  import opened Progress

  // ----- how far a call is from its end

  /** The part of a call that no loop goes back to. */
  function Stage(pc: Pc): nat {
    match pc
    case Done(_) => 0
    case RegOut(_, _) => 1
    case RegUndo(_) => 2
    case RegFail(_) => 3
    case RegWrite(_, _) => 5
    case RegEnter(_, _) => 6
    case RegKey(_, _) => 7
    case UnWrite(_) => 5
    case UnEnter(_) => 6
    case UnKey(_) => 7
    case MaOut(_) => 1
    case MaLock => 2
    case CrCommit(_, _, _) => 2
    case CrCall(_, _, _) => 3
    case CrRead(_, _, _) => 4
    case CrLook(_, _, _) => 5
    case CrFind(_) => 6
    case CrLock(_) => 7
    case DeCall(_, _, _, _) => 2
    case DeReg(_, _, _, _) => 3
    case DeLook(_, _, _, _) => 4
    case DeRoute(_, _, _) => 5
    case DeTables(_, _) => 6
    case DeLock(_, _) => 7
    case DeRead(_) => 8
    case CapAt(_) => 3
    case CapAtRead(_) => 2
    case CapAll => 3
    case CapAllRead => 2
    case CapLoop(_) => 1
    case CapLook(_, _) => 1
    case CapRead(_, _) => 1
    case _ => 4
  }

  /** How much of the loop over listeners or nodes is left. */
  function Left(pc: Pc): nat {
    match pc
    case RegNext(_, _, todo) => 6 * |todo|
    case AddLook(_, _, todo) => 6 * |todo - {MasterListener}| + 5
    case AddRead(_, _, todo) => 6 * |todo - {MasterListener}| + 4
    case AddList(_, _, todo) => 6 * |todo - {MasterListener}| + 3
    case AddLock(_, _, todo, _) => 6 * |todo - {MasterListener}| + 2
    case AddTables(_, _, todo, _) => 6 * |todo - {MasterListener}| + 1
    case UnNext(_, _, todo) => |todo|
    case CapLoop(nodes) => 3 * |nodes|
    case CapLook(_, nodes) => 3 * |nodes| + 2
    case CapRead(_, nodes) => 3 * |nodes| + 1
    case _ => 0
  }

  predicate Nearer(pc: Pc, pc': Pc) {
    Stage(pc') < Stage(pc) || (Stage(pc') == Stage(pc) && Left(pc') < Left(pc))
  }

  lemma OneLess<T>(s: set<T>, x: T)
    requires x in s
    ensures |s - {x}| == |s| - 1
  {
  }

  lemma RegistryNearer(cfg: Config, pc: Pc, e: Effect, pc': Pc)
    requires RegistryMoves(cfg, pc, e, pc')
    ensures Nearer(pc, pc')
  {
    if pc.RegNext? && pc.todo != {} {
      if e.Answered? {
        OneLess(pc.todo, e.l);
      } else {
        OneLess(pc.todo, MasterListener);
      }
    } else if pc.UnNext? && pc.todo != {} {
      OneLess(pc.todo, e.l);
    }
  }

  lemma VolumeNearer(cfg: Config, pc: Pc, e: Effect, pc': Pc)
    requires VolumeMoves(cfg, pc, e, pc')
    ensures Nearer(pc, pc')
  {
  }

  lemma CapacityNearer(pc: Pc, e: Effect, pc': Pc)
    requires CapacityMoves(pc, e, pc')
    ensures Nearer(pc, pc')
  {
    if pc.CapLoop? && pc.nodes != {} {
      OneLess(pc.nodes, pc'.node);
    }
  }

  predicate InLoop(pc: Pc) {
    pc.AddLook? || pc.AddLock? || pc.CapLook?
  }

  lemma TakenInLoop(cfg: Config, pc: Pc)
    requires Wants(cfg, pc).Some? && InLoop(pc)
    ensures Stage(Taken(cfg, pc)) == Stage(pc) && Left(Taken(cfg, pc)) < Left(pc)
  {
    var pc' := Taken(cfg, pc);
    if pc.AddLook? {
      assert pc' == AddRead(pc.id, pc.endpoint, pc.todo);
    } else if pc.AddLock? {
      assert pc' == AddTables(pc.id, pc.endpoint, pc.todo, pc.reports);
    } else {
      assert pc' == CapRead(pc.node, pc.nodes);
    }
  }

  lemma TakenOutside(cfg: Config, pc: Pc)
    requires Wants(cfg, pc).Some? && !InLoop(pc)
    ensures Stage(Taken(cfg, pc)) < Stage(pc)
  {
  }

  lemma TakenNearer(cfg: Config, pc: Pc)
    requires Wants(cfg, pc).Some?
    ensures Nearer(pc, Taken(cfg, pc))
  {
    if InLoop(pc) {
      TakenInLoop(cfg, pc);
    } else {
      TakenOutside(cfg, pc);
    }
  }

  /** Every step brings its call nearer to the end. */
  lemma StepNearer(cfg: Config, pc: Pc, e: Effect, pc': Pc)
    requires Moves(cfg, pc, e, pc')
    ensures Nearer(pc, pc')
  {
    if Wants(cfg, pc).Some? {
      TakenNearer(cfg, pc);
    } else if KeyOf(pc).Some? {
      RegistryNearer(cfg, pc, e, pc');
    } else if HoldsMaster(pc) || pc.DeRead? {
      VolumeNearer(cfg, pc, e, pc');
    } else {
      CapacityNearer(pc, e, pc');
    }
  }

  // ----- all calls together

  ghost function Total(threads: map<Tid, Pc>, f: Pc -> nat): nat {
    if |threads| == 0 then 0
    else
      var t := Pick(threads.Keys);
      f(threads[t]) + Total(threads - {t}, f)
  }

  lemma {:induction false} TotalPick(threads: map<Tid, Pc>, f: Pc -> nat, t: Tid)
    requires t in threads
    ensures Total(threads, f) == f(threads[t]) + Total(threads - {t}, f)
    decreases |threads|
  {
    var u := Pick(threads.Keys);
    if u != t {
      assert (threads - {u}).Keys == threads.Keys - {u};
      TotalPick(threads - {u}, f, t);
      assert (threads - {t}).Keys == threads.Keys - {t};
      TotalPick(threads - {t}, f, u);
      assert threads - {u} - {t} == threads - {t} - {u};
    }
  }

  lemma TotalNext(threads: map<Tid, Pc>, f: Pc -> nat, t: Tid, pc: Pc)
    requires t in threads
    ensures Total(threads[t := pc], f) - Total(threads, f) == f(pc) - f(threads[t])
  {
    TotalPick(threads, f, t);
    TotalPick(threads[t := pc], f, t);
    assert threads[t := pc] - {t} == threads - {t};
  }

  ghost function StagesLeft(s: State): nat {
    Total(s.threads, Stage)
  }

  ghost function LoopsLeft(s: State): nat {
    Total(s.threads, Left)
  }

  /** With no new calls, every step of the system decreases (StagesLeft, LoopsLeft): there is no
      endless run of steps. */
  lemma StepsDescend(cfg: Config, s: State, t: Tid, e: Effect, pc': Pc)
    requires May(cfg, s, t, e, pc')
    ensures var s' := Do(cfg, s, t, e, pc');
            StagesLeft(s') < StagesLeft(s) || (StagesLeft(s') == StagesLeft(s) && LoopsLeft(s') < LoopsLeft(s))
  {
    StepNearer(cfg, s.threads[t], e, pc');
    TotalNext(s.threads, Stage, t, pc');
    TotalNext(s.threads, Left, t, pc');
  }

  ghost predicate AllDone(s: State) {
    forall t | t in s.threads :: s.threads[t].Done?
  }

  lemma Extend(cfg: Config, states: seq<State>, steps: seq<Step>, t: Tid, e: Effect, pc': Pc)
    requires IsRun(cfg, states, steps) && May(cfg, states[|steps|], t, e, pc')
    ensures IsRun(cfg, states + [Do(cfg, states[|steps|], t, e, pc')], steps + [Run(t, e, pc')])
  {
    var states', steps' := states + [Do(cfg, states[|steps|], t, e, pc')], steps + [Run(t, e, pc')];
    forall k | 0 <= k < |steps'| ensures Next(cfg, states'[k], steps'[k], states'[k + 1]) {
      if k < |steps| {
        assert Next(cfg, states[k], steps[k], states[k + 1]);
      }
    }
  }

  /** From every state of every run, taking whatever step is possible next ends every call: the run
      can be continued, without a new call, until all are done. */
  lemma {:induction false} CallsEnd(cfg: Config, states: seq<State>, steps: seq<Step>)
    returns (states': seq<State>, steps': seq<Step>)
    requires IsRun(cfg, states, steps)
    ensures IsRun(cfg, states', steps') && steps <= steps' && states <= states'
    ensures forall k | |steps| <= k < |steps'| :: steps'[k].Run?
    ensures AllDone(states'[|steps'|])
    decreases StagesLeft(states[|steps|]), LoopsLeft(states[|steps|])
  {
    var s := states[|steps|];
    if t :| t in s.threads && !s.threads[t].Done? {
      NoDeadlock(cfg, states, steps, |steps|, t);
      var u, e, pc' :| u in s.threads && !s.threads[u].Done? && May(cfg, s, u, e, pc');
      StepsDescend(cfg, s, u, e, pc');
      Extend(cfg, states, steps, u, e, pc');
      states', steps' := CallsEnd(cfg, states + [Do(cfg, s, u, e, pc')], steps + [Run(u, e, pc')]);
    } else {
      states', steps' := states, steps;
    }
  }
}
