/** The registry and its listeners agree at every interleaving, for any hash from node ids to locks. */
module RegistryAgreement {
  import opened Wrappers
  import opened Registry
  import opened System
  import opened Locks

  /** The last thing each of the listeners heard about the node is that it was added, under exactly
      the endpoint the registry has, and each of them accepted. */
  ghost predicate Agreed(d: Data, id: string, ls: set<Listener>) {
    id in d.clients && forall l | l in ls :: (id, l) in d.last && d.last[(id, l)] == NodeAdded(l, d.clients[id], true)
  }

  /** A registration of this node has changed the registry and not yet told every listener, or is
      about to be undone. */
  predicate Unsettled(pc: Pc, id: string) {
    || (pc.RegNext? && pc.id == id && pc.todo != {})
    || ((pc.AddLook? || pc.AddRead? || pc.AddList? || pc.AddLock? || pc.AddTables? || pc.RegFail? || pc.RegUndo?)
          && pc.id == id)
  }

  /** While a registration is on its way: the endpoint announced, and the listeners told so far. */
  ghost predicate Announcing(cfg: Config, d: Data, pc: Pc) {
    && ((pc.RegNext? || pc.AddLook? || pc.AddRead? || pc.AddList? || pc.AddLock? || pc.AddTables?) ==>
          Agreed(d, pc.id, cfg.listeners - pc.todo) && d.clients[pc.id] == NodeInfo(pc.id, pc.endpoint))
    && ((pc.AddLook? || pc.AddRead? || pc.AddList? || pc.AddLock? || pc.AddTables?) ==> MasterListener in pc.todo)
    && (pc.UnNext? ==> pc.id !in d.clients)
  }

  ghost predicate Told(cfg: Config, s: State, id: string) {
    id in s.data.clients && (forall t | t in s.threads :: !Unsettled(s.threads[t], id)) ==>
      Agreed(s.data, id, cfg.listeners)
  }

  ghost predicate NamedById(d: Data, id: string) {
    id in d.clients ==> d.clients[id].nodeID == id
  }

  /** A node the master was last told about, and accepted, has an entry in devicesByNodes. */
  ghost predicate Entered(d: Data, id: string) {
    (id, MasterListener) in d.last && d.last[(id, MasterListener)].NodeAdded? && d.last[(id, MasterListener)].ok ==>
      id in d.master.byNode
  }

  ghost predicate AgreementInv(cfg: Config, s: State) {
    && (forall id :: Told(cfg, s, id))
    && (forall id :: NamedById(s.data, id))
    && (forall id :: Entered(s.data, id))
    && (forall t | t in s.threads :: Announcing(cfg, s.data, s.threads[t]))
  }

  /** The node whose registration an effect changes. */
  function NodeOfEffect(e: Effect): Option<string> {
    match e
    case PutClient(node) => Some(node.nodeID)
    case DropClient(id) => Some(id)
    case Answered(_, node, _) => Some(node.nodeID)
    case Added(node, _, _) => Some(node.nodeID)
    case Removed(_, id, _) => Some(id)
    case _ => None
  }

  /** All that the registry, the listeners' history and devicesByNodes say about one node. */
  ghost predicate SameFor(d: Data, d': Data, id: string) {
    && (id in d'.clients <==> id in d.clients) && (id in d.clients ==> d'.clients[id] == d.clients[id])
    && (forall l :: (id, l) in d'.last <==> (id, l) in d.last)
    && (forall l | (id, l) in d.last :: d'.last[(id, l)] == d.last[(id, l)])
    && (id in d'.master.byNode <==> id in d.master.byNode)
  }

  lemma EffectIsLocal(cfg: Config, d: Data, e: Effect, id: string)
    requires Possible(d, e) && NodeOfEffect(e) != Some(id)
    ensures SameFor(d, Apply(cfg, d, e), id)
  {
  }

  lemma RegistryEffects(cfg: Config, pc: Pc, e: Effect, pc': Pc)
    requires RegistryMoves(cfg, pc, e, pc') && NodeOfEffect(e).Some?
    ensures NodeOfEffect(e) == KeyOf(pc)
  {
  }

  lemma VolumeEffects(cfg: Config, pc: Pc, e: Effect, pc': Pc)
    requires VolumeMoves(cfg, pc, e, pc')
    ensures NodeOfEffect(e).None? && KeyOf(pc').None?
  {
  }

  lemma CapacityEffects(cfg: Config, pc: Pc, e: Effect, pc': Pc)
    requires CapacityMoves(pc, e, pc')
    ensures NodeOfEffect(e).None? && KeyOf(pc').None?
  {
  }

  /** Only a thread that holds a node's key lock changes what is said about the node. */
  lemma EffectsUnderKey(cfg: Config, pc: Pc, e: Effect, pc': Pc)
    requires Moves(cfg, pc, e, pc') && NodeOfEffect(e).Some?
    ensures KeyOf(pc).Some? && Wants(cfg, pc).None? && NodeOfEffect(e) == KeyOf(pc)
  {
    if Wants(cfg, pc).None? {
      if KeyOf(pc).Some? {
        RegistryEffects(cfg, pc, e, pc');
      } else if HoldsMaster(pc) || pc.DeRead? {
        VolumeEffects(cfg, pc, e, pc');
      } else {
        CapacityEffects(cfg, pc, e, pc');
      }
    }
  }

  /** What RegistryMoves does for the node of the thread itself. */
  lemma OwnStep(cfg: Config, pc: Pc, d: Data, e: Effect, pc': Pc)
    requires RegistryMoves(cfg, pc, e, pc') && Decides(cfg, pc, d, pc') && Possible(d, e)
    requires Announcing(cfg, d, pc)
    requires pc.RegWrite? && Known(d.clients, pc.id, pc.endpoint) ==>
               Agreed(d, pc.id, cfg.listeners) && d.clients[pc.id].nodeID == pc.id
    ensures Announcing(cfg, Apply(cfg, d, e), pc')
  {
    match pc
    case RegWrite(_, _) =>
    case RegNext(_, _, _) =>
    case AddTables(_, _, _, _) =>
    case _ =>
  }

  /** After the step, if the thread itself is not in the middle of a registration of its node, the
      node is either agreed on or gone. */
  lemma OwnSettles(cfg: Config, pc: Pc, d: Data, e: Effect, pc': Pc, id: string)
    requires RegistryMoves(cfg, pc, e, pc') && Decides(cfg, pc, d, pc') && Possible(d, e) && KeyOf(pc) == Some(id)
    requires Announcing(cfg, d, pc) && Announcing(cfg, Apply(cfg, d, e), pc')
    requires Unsettled(pc, id) || id !in d.clients || Agreed(d, id, cfg.listeners)
    ensures Unsettled(pc', id) || id !in Apply(cfg, d, e).clients || Agreed(Apply(cfg, d, e), id, cfg.listeners)
  {
    match pc
    case RegNext(_, _, _) =>
    case AddTables(_, _, _, _) =>
    case _ =>
  }

  lemma MasterAnswers(cfg: Config, pc: Pc, e: Effect, pc': Pc)
    requires RegistryMoves(cfg, pc, e, pc') && e.Answered? && e.l == MasterListener
    ensures !e.ok
  {
  }

  lemma EffectKeepsNames(cfg: Config, d: Data, e: Effect, id: string)
    requires Possible(d, e) && NamedById(d, id)
    ensures NamedById(Apply(cfg, d, e), id)
  {
  }

  lemma EffectKeepsEntered(cfg: Config, d: Data, e: Effect, id: string)
    requires Possible(d, e) && Entered(d, id)
    requires e.Answered? && e.l == MasterListener ==> !e.ok
    ensures Entered(Apply(cfg, d, e), id)
  {
    if NodeOfEffect(e) != Some(id) {
      EffectIsLocal(cfg, d, e, id);
    }
  }

  lemma TakenAnnounces(cfg: Config, d: Data, pc: Pc, id: string)
    requires Wants(cfg, pc).Some? && Announcing(cfg, d, pc)
    ensures Announcing(cfg, d, Taken(cfg, pc))
    ensures Unsettled(Taken(cfg, pc), id) <==> Unsettled(pc, id)
  {
  }

  lemma AnnouncingNeedsKey(cfg: Config, d: Data, pc: Pc, id: string)
    ensures KeyOf(pc).None? ==> Announcing(cfg, d, pc)
    ensures Unsettled(pc, id) ==> KeyOf(pc) == Some(id)
  {
  }

  lemma AnnouncingFrame(cfg: Config, d: Data, d': Data, pc: Pc)
    requires KeyOf(pc).Some? && SameFor(d, d', KeyOf(pc).value) && Announcing(cfg, d, pc)
    ensures Announcing(cfg, d', pc)
  {
  }

  lemma AgreedFrame(d: Data, d': Data, id: string, ls: set<Listener>)
    requires SameFor(d, d', id) && Agreed(d, id, ls)
    ensures Agreed(d', id, ls)
  {
  }

  lemma KeyHeld(cfg: Config, pc: Pc)
    ensures KeyOf(pc).Some? ==> KeyLock(cfg.hash(KeyOf(pc).value)) in Held(cfg, pc)
  {
  }

  /** While a thread holds a node's key lock, no other thread is in the middle of registering it. */
  lemma OnlyOne(cfg: Config, s: State, t: Tid, id: string)
    requires LockInv(cfg, s) && t in s.threads && KeyOf(s.threads[t]) == Some(id)
    ensures forall u | u in s.threads && u != t :: !Unsettled(s.threads[u], id) && KeyOf(s.threads[u]) != Some(id)
  {
    forall u | u in s.threads && u != t ensures !Unsettled(s.threads[u], id) && KeyOf(s.threads[u]) != Some(id) {
      Exclusive(cfg, s, t, u);
      AnnouncingNeedsKey(cfg, s.data, s.threads[u], id);
      KeyHeld(cfg, s.threads[t]);
      KeyHeld(cfg, s.threads[u]);
    }
  }

  /** Either the thread is unsettled about its own node, or the node is gone or agreed on. */
  lemma OwnState(cfg: Config, s: State, t: Tid, id: string)
    requires LockInv(cfg, s) && t in s.threads && KeyOf(s.threads[t]) == Some(id) && Told(cfg, s, id)
    ensures Unsettled(s.threads[t], id) || id !in s.data.clients || Agreed(s.data, id, cfg.listeners)
  {
    OnlyOne(cfg, s, t, id);
  }

  lemma OwnAnnounces(cfg: Config, s: State, t: Tid, e: Effect, pc': Pc)
    requires LockInv(cfg, s) && AgreementInv(cfg, s) && t in s.threads && KeyOf(s.threads[t]).Some?
    requires RegistryMoves(cfg, s.threads[t], e, pc') && Decides(cfg, s.threads[t], s.data, pc') && Possible(s.data, e)
    ensures Announcing(cfg, Apply(cfg, s.data, e), pc')
  {
    var pc := s.threads[t];
    assert Told(cfg, s, pc.id) && NamedById(s.data, pc.id);
    OwnState(cfg, s, t, pc.id);
    OwnStep(cfg, pc, s.data, e, pc');
  }

  lemma RunAnnounces(cfg: Config, s: State, t: Tid, e: Effect, pc': Pc)
    requires LockInv(cfg, s) && AgreementInv(cfg, s) && May(cfg, s, t, e, pc')
    ensures Announcing(cfg, Apply(cfg, s.data, e), pc')
  {
    var pc := s.threads[t];
    if Wants(cfg, pc).Some? {
      TakenAnnounces(cfg, s.data, pc, "");
    } else if KeyOf(pc).Some? {
      OwnAnnounces(cfg, s, t, e, pc');
    } else {
      StaysWithoutKey(cfg, pc, e, pc');
      AnnouncingNeedsKey(cfg, Apply(cfg, s.data, e), pc', "");
    }
  }

  lemma StaysWithoutKey(cfg: Config, pc: Pc, e: Effect, pc': Pc)
    requires Moves(cfg, pc, e, pc') && Wants(cfg, pc).None? && KeyOf(pc).None?
    ensures KeyOf(pc').None?
  {
    if HoldsMaster(pc) || pc.DeRead? {
      VolumeEffects(cfg, pc, e, pc');
    } else {
      CapacityEffects(cfg, pc, e, pc');
    }
  }

  lemma RunOthersAnnounce(cfg: Config, s: State, t: Tid, e: Effect, pc': Pc, u: Tid)
    requires LockInv(cfg, s) && AgreementInv(cfg, s) && May(cfg, s, t, e, pc') && u in s.threads && u != t
    ensures Announcing(cfg, Apply(cfg, s.data, e), s.threads[u])
  {
    var other := s.threads[u];
    AnnouncingNeedsKey(cfg, Apply(cfg, s.data, e), other, "");
    if KeyOf(other).Some? {
      var id := KeyOf(other).value;
      if NodeOfEffect(e) == Some(id) {
        EffectsUnderKey(cfg, s.threads[t], e, pc');
        OnlyOne(cfg, s, t, id);
      } else {
        EffectIsLocal(cfg, s.data, e, id);
        AnnouncingFrame(cfg, s.data, Apply(cfg, s.data, e), other);
      }
    }
  }

  lemma RunSettles(cfg: Config, s: State, t: Tid, e: Effect, pc': Pc, id: string)
    requires LockInv(cfg, s) && AgreementInv(cfg, s) && May(cfg, s, t, e, pc')
    ensures Told(cfg, Do(cfg, s, t, e, pc'), id)
  {
    var pc, s' := s.threads[t], Do(cfg, s, t, e, pc');
    assert Told(cfg, s, id);
    if id in s'.data.clients && forall u | u in s'.threads :: !Unsettled(s'.threads[u], id) {
      assert s'.threads[t] == pc';
      if KeyOf(pc) == Some(id) {
        OwnState(cfg, s, t, id);
        if Wants(cfg, pc).Some? {
          TakenAnnounces(cfg, s.data, pc, id);
        } else {
          RunAnnounces(cfg, s, t, e, pc');
          OwnSettles(cfg, pc, s.data, e, pc', id);
        }
      } else {
        if NodeOfEffect(e).Some? {
          EffectsUnderKey(cfg, pc, e, pc');
        }
        EffectIsLocal(cfg, s.data, e, id);
        AnnouncingNeedsKey(cfg, s.data, pc, id);
        assert forall u | u in s.threads && u != t :: s'.threads[u] == s.threads[u];
        AgreedFrame(s.data, s'.data, id, cfg.listeners);
      }
    }
  }

  lemma AgreementSpawn(cfg: Config, s: State, t: Tid, call: Call)
    requires AgreementInv(cfg, s) && t !in s.threads
    ensures AgreementInv(cfg, s.(threads := s.threads[t := Entry(call)]))
  {
    var s' := s.(threads := s.threads[t := Entry(call)]);
    forall id ensures Told(cfg, s', id) {
      AnnouncingNeedsKey(cfg, s.data, Entry(call), id);
      assert Told(cfg, s, id);
      assert forall u | u in s.threads :: s'.threads[u] == s.threads[u];
    }
    AnnouncingNeedsKey(cfg, s.data, Entry(call), "");
  }

  lemma AgreementRun(cfg: Config, s: State, t: Tid, e: Effect, pc': Pc)
    requires LockInv(cfg, s) && AgreementInv(cfg, s) && May(cfg, s, t, e, pc')
    ensures AgreementInv(cfg, Do(cfg, s, t, e, pc'))
  {
    var s' := Do(cfg, s, t, e, pc');
    if e.Answered? && e.l == MasterListener {
      EffectsUnderKey(cfg, s.threads[t], e, pc');
      MasterAnswers(cfg, s.threads[t], e, pc');
    }
    forall id ensures Told(cfg, s', id) && NamedById(s'.data, id) && Entered(s'.data, id) {
      RunSettles(cfg, s, t, e, pc', id);
      assert NamedById(s.data, id) && Entered(s.data, id);
      EffectKeepsNames(cfg, s.data, e, id);
      EffectKeepsEntered(cfg, s.data, e, id);
    }
    RunAnnounces(cfg, s, t, e, pc');
    forall u | u in s'.threads ensures Announcing(cfg, s'.data, s'.threads[u]) {
      if u != t {
        RunOthersAnnounce(cfg, s, t, e, pc', u);
      }
    }
  }

  lemma AgreementNext(cfg: Config, s: State, step: Step, s': State)
    requires LockInv(cfg, s) && AgreementInv(cfg, s) && Next(cfg, s, step, s')
    ensures AgreementInv(cfg, s')
  {
    match step
    case Spawn(t, call) => AgreementSpawn(cfg, s, t, call);
    case Start(_, _) =>
      forall id ensures Told(cfg, s', id) && Entered(s'.data, id) && NamedById(s'.data, id) {
        assert Told(cfg, s, id) && Entered(s.data, id) && NamedById(s.data, id);
      }
    case Run(t, e, pc') => AgreementRun(cfg, s, t, e, pc');
  }

  lemma {:induction false} AgreementAlways(cfg: Config, states: seq<State>, steps: seq<Step>, i: nat)
    requires IsRun(cfg, states, steps) && i < |states|
    ensures AgreementInv(cfg, states[i])
  {
    if i > 0 {
      LockInvAlways(cfg, states, steps, i - 1);
      AgreementAlways(cfg, states, steps, i - 1);
      AgreementNext(cfg, states[i - 1], steps[i - 1], states[i]);
    }
  }

  /** Whenever a node's key lock is free and the node is registered, the last callback every listener
      got about it is an accepted OnNodeAdded with the registered endpoint; in particular the master
      has an entry for the node in devicesByNodes. */
  lemma ListenersAgree(cfg: Config, states: seq<State>, steps: seq<Step>, i: nat, id: string)
    requires IsRun(cfg, states, steps) && i < |states|
    requires KeyLock(cfg.hash(id)) !in states[i].owner && id in states[i].data.clients
    ensures forall l | l in cfg.listeners ::
              (id, l) in states[i].data.last
                  && states[i].data.last[(id, l)] == NodeAdded(l, states[i].data.clients[id], true)
    ensures states[i].data.clients[id].nodeID == id
    ensures MasterListener in cfg.listeners ==> id in states[i].data.master.byNode
  {
    var s := states[i];
    LockInvAlways(cfg, states, steps, i);
    AgreementAlways(cfg, states, steps, i);
    forall t | t in s.threads ensures !Unsettled(s.threads[t], id) {
      AnnouncingNeedsKey(cfg, s.data, s.threads[t], id);
      KeyHeld(cfg, s.threads[t]);
      HeldIsOwned(cfg, s, t);
    }
    assert Told(cfg, s, id) && NamedById(s.data, id) && Entered(s.data, id);
  }

  /** Inside a registration the master always finds the node it was just told about: the lookup of
      OnNodeAdded cannot fail. */
  lemma LookupNeverFails(cfg: Config, states: seq<State>, steps: seq<Step>, i: nat, t: Tid)
    requires IsRun(cfg, states, steps) && i < |states|
    requires t in states[i].threads && states[i].threads[t].AddRead?
    ensures states[i].threads[t].id in states[i].data.clients
    ensures states[i].data.clients[states[i].threads[t].id].endpoint == states[i].threads[t].endpoint
  {
    AgreementAlways(cfg, states, steps, i);
    assert Announcing(cfg, states[i].data, states[i].threads[t]);
  }
}
