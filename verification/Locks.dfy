/** The lock discipline of the driver. */
module Locks {
  import opened System

  ghost function HeldBy(cfg: Config, threads: map<Tid, Pc>): map<Tid, set<Lock>> {
    map t | t in threads :: Held(cfg, threads[t])
  }

  /** owner says exactly which thread holds which lock. */
  ghost predicate Owns(owner: map<Lock, Tid>, held: map<Tid, set<Lock>>) {
    && (forall t, l | t in held && l in held[t] :: l in owner && owner[l] == t)
    && (forall l | l in owner :: owner[l] in held && l in held[owner[l]])
  }

  lemma OwnsNext(owner: map<Lock, Tid>, held: map<Tid, set<Lock>>, t: Tid, after: set<Lock>)
    requires Owns(owner, held) && t in held && (after - held[t]) !! owner.Keys
    ensures Owns(Reown(owner, t, held[t], after), held[t := after])
  {
    var owner', held' := Reown(owner, t, held[t], after), held[t := after];
    forall u, l | u in held' && l in held'[u] ensures l in owner' && owner'[l] == u {
      if u != t {
        assert l in held[u];
        assert owner[l] == u;
      } else if l in held[t] {
        assert owner[l] == t;
      }
    }
    forall l | l in owner' ensures owner'[l] in held' && l in held'[owner'[l]] {
      if l !in after - held[t] {
        assert owner'[l] == owner[l];
      }
    }
  }

  ghost predicate LockInv(cfg: Config, s: State) {
    Owns(s.owner, HeldBy(cfg, s.threads))
  }

  lemma HeldByNext(cfg: Config, threads: map<Tid, Pc>, t: Tid, pc: Pc)
    ensures HeldBy(cfg, threads[t := pc]) == HeldBy(cfg, threads)[t := Held(cfg, pc)]
  {
  }

  lemma LockInvNext(cfg: Config, s: State, step: Step, s': State)
    requires LockInv(cfg, s) && Next(cfg, s, step, s')
    ensures LockInv(cfg, s')
  {
    match step
    case Spawn(t, call) => LockInvSpawn(cfg, s, t, call);
    case Run(t, e, pc') => LockInvRun(cfg, s, t, e, pc');
    case Start(_, _) =>
  }

  lemma LockInvSpawn(cfg: Config, s: State, t: Tid, call: Call)
    requires LockInv(cfg, s) && t !in s.threads
    ensures LockInv(cfg, s.(threads := s.threads[t := Entry(call)]))
  {
    EntryHoldsNothing(cfg, call);
    HeldByNext(cfg, s.threads, t, Entry(call));
  }

  lemma LockInvRun(cfg: Config, s: State, t: Tid, e: Effect, pc': Pc)
    requires LockInv(cfg, s) && May(cfg, s, t, e, pc')
    ensures LockInv(cfg, Do(cfg, s, t, e, pc'))
  {
    OwnsNext(s.owner, HeldBy(cfg, s.threads), t, Held(cfg, pc'));
    HeldByNext(cfg, s.threads, t, pc');
  }

  lemma EntryHoldsNothing(cfg: Config, call: Call)
    ensures Held(cfg, Entry(call)) == {}
  {
  }

  lemma {:induction false} LockInvAlways(cfg: Config, states: seq<State>, steps: seq<Step>, i: nat)
    requires IsRun(cfg, states, steps) && i < |states|
    ensures LockInv(cfg, states[i])
  {
    if i > 0 {
      LockInvAlways(cfg, states, steps, i - 1);
      LockInvNext(cfg, states[i - 1], steps[i - 1], states[i]);
    }
  }

  lemma HeldIsOwned(cfg: Config, s: State, t: Tid)
    requires LockInv(cfg, s) && t in s.threads
    ensures forall l | l in Held(cfg, s.threads[t]) :: l in s.owner && s.owner[l] == t
  {
    assert HeldBy(cfg, s.threads)[t] == Held(cfg, s.threads[t]);
  }

  /** Mutual exclusion: two threads never hold the same lock. */
  lemma Exclusive(cfg: Config, s: State, t: Tid, t': Tid)
    requires LockInv(cfg, s) && t in s.threads && t' in s.threads && t != t'
    ensures Held(cfg, s.threads[t]) !! Held(cfg, s.threads[t'])
  {
    var held := HeldBy(cfg, s.threads);
    forall l | l in held[t] ensures l !in held[t'] {
      assert s.owner[l] == t;
    }
    assert held[t] !! held[t'];
  }

  /** Key locks come before the master mutex, which comes before the registry mutex. */
  function Rank(l: Lock): nat {
    match l
    case KeyLock(_) => 0
    case MasterMutex => 1
    case RegistryMutex => 2
  }

  /** Locks are only nested upwards, so no thread waits for a lock it holds, and no thread waits for
      one key lock while holding another. */
  lemma Nesting(cfg: Config, pc: Pc)
    requires Wants(cfg, pc).Some?
    ensures forall l | l in Held(cfg, pc) :: Rank(l) < Rank(Wants(cfg, pc).value)
    ensures Held(cfg, Taken(cfg, pc)) == Held(cfg, pc) + {Wants(cfg, pc).value}
  {
  }

  /** Every lock held after the step was held before. */
  predicate TakesNone(pc: Pc, pc': Pc) {
    (KeyOf(pc').None? || KeyOf(pc') == KeyOf(pc)) && !HoldsRegistry(pc') && (HoldsMaster(pc') ==> HoldsMaster(pc))
  }

  lemma RegistryMovesKeepKey(cfg: Config, pc: Pc, e: Effect, pc': Pc)
    requires RegistryMoves(cfg, pc, e, pc')
    ensures KeyOf(pc').None? || KeyOf(pc') == KeyOf(pc)
  {
  }

  lemma RegistryMovesKeepLocks(cfg: Config, pc: Pc, e: Effect, pc': Pc)
    requires RegistryMoves(cfg, pc, e, pc')
    ensures !HoldsRegistry(pc') && !HoldsMaster(pc')
  {
  }

  lemma VolumeMovesKeepLocks(cfg: Config, pc: Pc, e: Effect, pc': Pc)
    requires VolumeMoves(cfg, pc, e, pc')
    ensures TakesNone(pc, pc')
  {
  }

  lemma CapacityMovesKeepLocks(pc: Pc, e: Effect, pc': Pc)
    requires CapacityMoves(pc, e, pc')
    ensures TakesNone(pc, pc')
  {
  }

  lemma TakesNoneHeld(cfg: Config, pc: Pc, pc': Pc)
    requires TakesNone(pc, pc')
    ensures Held(cfg, pc') <= Held(cfg, pc)
  {
  }

  /** A thread that is not waiting takes no lock. */
  lemma StepsTakeNoLock(cfg: Config, pc: Pc, e: Effect, pc': Pc)
    requires Moves(cfg, pc, e, pc') && Wants(cfg, pc).None?
    ensures Held(cfg, pc') <= Held(cfg, pc)
  {
    if KeyOf(pc).Some? {
      RegistryMovesKeepKey(cfg, pc, e, pc');
      RegistryMovesKeepLocks(cfg, pc, e, pc');
    } else if HoldsMaster(pc) || pc.DeRead? {
      VolumeMovesKeepLocks(cfg, pc, e, pc');
    } else {
      CapacityMovesKeepLocks(pc, e, pc');
    }
    TakesNoneHeld(cfg, pc, pc');
  }

  /** A finished call holds nothing. */
  lemma FinishedHoldsNothing(cfg: Config, s: State, t: Tid)
    requires LockInv(cfg, s) && t in s.threads && s.threads[t].Done?
    ensures forall l | l in s.owner :: s.owner[l] != t
  {
    assert HeldBy(cfg, s.threads)[t] == {};
  }

  /** Among the unfinished threads there is one that is not waiting, or waits for a free lock. */
  lemma SomeoneFree(cfg: Config, s: State, t: Tid) returns (u: Tid)
    requires LockInv(cfg, s) && t in s.threads && !s.threads[t].Done?
    ensures u in s.threads && !s.threads[u].Done?
    ensures Wants(cfg, s.threads[u]).Some? ==> Wants(cfg, s.threads[u]).value !in s.owner
  {
    u := t;
    var want := Wants(cfg, s.threads[u]);
    while want.Some? && want.value in s.owner
      invariant u in s.threads && !s.threads[u].Done? && want == Wants(cfg, s.threads[u])
      decreases if want.Some? then 2 - Rank(want.value) else -1
    {
      assert want.value in HeldBy(cfg, s.threads)[s.owner[want.value]];
      // whoever holds the lock waits, if at all, for one of higher rank
      u := s.owner[want.value];
      if Wants(cfg, s.threads[u]).Some? {
        Nesting(cfg, s.threads[u]);
      }
      want := Wants(cfg, s.threads[u]);
    }
  }
}
