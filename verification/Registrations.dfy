/** Registrations from beginning to end, and what is left of a node that has gone. */
module Registrations {
  import opened Wrappers
  import opened Devices
  import opened Tables
  import opened Registry
  import opened System
  import opened RegistryAgreement

  // ----- a node that has gone

  /** The master lists no node that it has never heard of, or last heard of as deleted. */
  ghost predicate Forgotten(d: Data, id: string) {
    (id, MasterListener) !in d.last || d.last[(id, MasterListener)].NodeDeleted? ==> id !in d.master.byNode
  }

  lemma EffectKeepsForgotten(cfg: Config, d: Data, e: Effect, id: string)
    requires Possible(d, e) && Forgotten(d, id)
    ensures Forgotten(Apply(cfg, d, e), id)
  {
    if NodeOfEffect(e) != Some(id) {
      EffectIsLocal(cfg, d, e, id);
    }
  }

  lemma {:induction false} ForgottenAlways(cfg: Config, states: seq<State>, steps: seq<Step>, i: nat, id: string)
    requires IsRun(cfg, states, steps) && i < |states|
    ensures Forgotten(states[i].data, id)
  {
    if i > 0 {
      ForgottenAlways(cfg, states, steps, i - 1, id);
      var step := steps[i - 1];
      assert Next(cfg, states[i - 1], step, states[i]);
      if step.Run? {
        EffectKeepsForgotten(cfg, states[i - 1].data, step.e, id);
      }
    }
  }

  /** From its OnNodeDeleted until it is added again, in every run, a node is not in devicesByNodes. */
  lemma DeletedIsUnlisted(cfg: Config, states: seq<State>, steps: seq<Step>, i: nat, id: string)
    requires IsRun(cfg, states, steps) && i < |states|
    requires (id, MasterListener) in states[i].data.last && states[i].data.last[(id, MasterListener)].NodeDeleted?
    ensures id !in states[i].data.master.byNode
  {
    ForgottenAlways(cfg, states, steps, i, id);
  }

  /** So no search for a device chooses it, and no deletion is routed to it. */
  lemma DeletedIsNotChosen(cfg: Config, states: seq<State>, steps: seq<Step>, i: nat, id: string)
    requires IsRun(cfg, states, steps) && i < |steps| && steps[i].Run? && steps[i].t in states[i].threads
    requires (id, MasterListener) in states[i].data.last && states[i].data.last[(id, MasterListener)].NodeDeleted?
    ensures states[i].threads[steps[i].t].CrFind? && steps[i].to.CrLook? ==> steps[i].to.node != id
    ensures states[i].threads[steps[i].t].DeRoute? && steps[i].to.DeLook? ==> steps[i].to.node != id
  {
    ForgottenAlways(cfg, states, steps, i, id);
    assert Next(cfg, states[i], steps[i], states[i + 1]);
    UnlistedIsNotChosen(cfg, states[i].data, states[i].threads[steps[i].t], steps[i].to, id);
  }

  lemma UnlistedIsNotChosen(cfg: Config, d: Data, pc: Pc, pc': Pc, id: string)
    requires Decides(cfg, pc, d, pc') && id !in d.master.byNode
    ensures pc.CrFind? && pc'.CrLook? ==> pc'.node != id
    ensures pc.DeRoute? && pc'.DeLook? ==> pc'.node != id
  {
  }

  lemma UnlistedIsNotFound<R>(parse: Parser, m: Master<R>, params: Params, requested: seq<string>, found: FindResult<R>,
                              id: string, name: string, route: Option<string>)
    requires RefsOk(m) && id !in m.byNode
    requires FindOutcome(parse, m, params, requested, found) && RouteOutcome(m, name, route)
    ensures found.Found? ==> found.node != id
    ensures route != Some(id)
  {
    FindSoundComplete(parse, m, params, requested, found);
  }

  // ----- one thread of a run

  ghost predicate Acts(step: Step, t: Tid) {
    step.Run? && step.t == t
  }

  lemma ActsOrStays(cfg: Config, s: State, step: Step, s': State, t: Tid)
    requires Next(cfg, s, step, s') && t in s.threads
    ensures t in s'.threads
    ensures Acts(step, t) ==> step.to == s'.threads[t] && Moves(cfg, s.threads[t], step.e, s'.threads[t])
    ensures !Acts(step, t) ==> s'.threads[t] == s.threads[t]
  {
  }

  // ----- a registration under the endpoint that is known

  predicate Idles(pc: Pc, id: string, endpoint: string) {
    pc == RegNext(id, endpoint, {}) || pc == RegOut(id, OK) || pc == Done(OK)
  }

  lemma IdlesOn(cfg: Config, pc: Pc, e: Effect, pc': Pc, id: string, endpoint: string)
    requires Idles(pc, id, endpoint) && Moves(cfg, pc, e, pc')
    ensures e == Quiet && Idles(pc', id, endpoint)
  {
    if pc.Done? {
      DoneStays(cfg, pc.code, e, pc');
    } else {
      assert RegistryMoves(cfg, pc, e, pc');
    }
  }

  ghost predicate Idling(s: State, t: Tid, id: string, endpoint: string) {
    t in s.threads && Idles(s.threads[t], id, endpoint)
  }

  lemma IdlesNext(cfg: Config, s: State, step: Step, s': State, t: Tid, id: string, endpoint: string)
    requires Next(cfg, s, step, s') && Idling(s, t, id, endpoint)
    ensures Idling(s', t, id, endpoint) && (Acts(step, t) ==> step.e == Quiet)
  {
    ActsOrStays(cfg, s, step, s', t);
    if Acts(step, t) {
      IdlesOn(cfg, s.threads[t], step.e, s'.threads[t], id, endpoint);
    }
  }

  lemma {:induction false} IdlesFrom(cfg: Config, states: seq<State>, steps: seq<Step>, t: Tid, id: string,
                                     endpoint: string, i: nat, j: nat)
    requires IsRun(cfg, states, steps) && i <= j < |states| && Idling(states[i], t, id, endpoint)
    ensures Idling(states[j], t, id, endpoint)
    decreases j - i
  {
    if i < j {
      IdlesNext(cfg, states[i], steps[i], states[i + 1], t, id, endpoint);
      IdlesFrom(cfg, states, steps, t, id, endpoint, i + 1, j);
    }
  }

  lemma IdlesQuietly(cfg: Config, states: seq<State>, steps: seq<Step>, t: Tid, id: string, endpoint: string, i: nat,
                     j: nat)
    requires IsRun(cfg, states, steps) && i <= j < |states| && Idling(states[i], t, id, endpoint)
    ensures QuietFrom(steps, t, i, j)
  {
    forall k | i <= k < j && Acts(steps[k], t) ensures steps[k].e == Quiet {
      IdlesFrom(cfg, states, steps, t, id, endpoint, i, k);
      IdlesNext(cfg, states[k], steps[k], states[k + 1], t, id, endpoint);
    }
  }

  lemma WriteStep(cfg: Config, s: State, step: Step, s': State, t: Tid, id: string, endpoint: string)
    requires Next(cfg, s, step, s') && Acts(step, t) && t in s.threads && s.threads[t] == RegWrite(id, endpoint)
    ensures step.e == PutClient(NodeInfo(id, endpoint)) && t in s'.threads
    ensures s'.data.master == s.data.master && s'.data.last == s.data.last
    ensures s'.data.clients == s.data.clients[id := NodeInfo(id, endpoint)]
    ensures s'.threads[t] == if id in s.data.clients && s.data.clients[id].endpoint == endpoint
                             then RegNext(id, endpoint, {}) else RegNext(id, endpoint, cfg.listeners)
  {
    assert RegistryMoves(cfg, s.threads[t], step.e, step.to);
  }

  /** Registering a node again under the endpoint it is known by, in any run: nobody is told, neither the
      master's tables nor what listeners last heard change by any step of the call from there on, and if it
      ends, it ends well. */
  lemma KnownIsQuiet(cfg: Config, states: seq<State>, steps: seq<Step>, t: Tid, id: string, endpoint: string, i: nat,
                     j: nat)
    requires IsRun(cfg, states, steps) && i < j < |states|
    requires Acts(steps[i], t) && t in states[i].threads && states[i].threads[t] == RegWrite(id, endpoint)
    requires id in states[i].data.clients && states[i].data.clients[id].endpoint == endpoint
    ensures states[i + 1].data.master == states[i].data.master && states[i + 1].data.last == states[i].data.last
    ensures forall k | i < k < j && Acts(steps[k], t) :: steps[k].e == Quiet && states[k + 1].data == states[k].data
    ensures t in states[j].threads && (states[j].threads[t].Done? ==> states[j].threads[t] == Done(OK))
  {
    WriteStep(cfg, states[i], steps[i], states[i + 1], t, id, endpoint);
    IdlesFrom(cfg, states, steps, t, id, endpoint, i + 1, j);
    IdlesQuietly(cfg, states, steps, t, id, endpoint, i + 1, j);
    forall k | i < k < j && Acts(steps[k], t) ensures states[k + 1].data == states[k].data {
      assert Next(cfg, states[k], steps[k], states[k + 1]);
    }
  }

  // ----- any other registration

  /** The effect is this listener's acceptance of the node. */
  predicate Accepts(e: Effect, l: Listener, node: NodeInfo) {
    e == Answered(l, node, true) || (l == MasterListener && e.Added? && e.node == node)
  }

  ghost predicate Heard(steps: seq<Step>, t: Tid, l: Listener, node: NodeInfo, i: nat, j: nat)
    requires j <= |steps|
  {
    exists k :: i <= k < j && Acts(steps[k], t) && Accepts(steps[k].e, l, node)
  }

  ghost predicate Refused(steps: seq<Step>, t: Tid, ls: set<Listener>, node: NodeInfo, i: nat, j: nat)
    requires j <= |steps|
  {
    exists k, l :: i <= k < j && l in ls && Acts(steps[k], t) && steps[k].e == Answered(l, node, false)
  }

  predicate Announces(pc: Pc, node: NodeInfo) {
    (pc.RegNext? || pc.AddLook? || pc.AddRead? || pc.AddList? || pc.AddLock? || pc.AddTables?)
    && pc.id == node.nodeID && pc.endpoint == node.endpoint
  }

  /** Some listeners have still to be told. */
  ghost predicate Telling(cfg: Config, pc: Pc, node: NodeInfo) {
    Announces(pc, node) && pc.todo <= cfg.listeners && (!pc.RegNext? ==> MasterListener in pc.todo)
  }

  ghost predicate HeardBy(steps: seq<Step>, t: Tid, ls: set<Listener>, node: NodeInfo, i: nat, j: nat)
    requires j <= |steps|
  {
    forall l | l in ls :: Heard(steps, t, l, node, i, j)
  }

  /** Where the registration stands, and who has heard of it. */
  ghost predicate Hearing(cfg: Config, steps: seq<Step>, t: Tid, node: NodeInfo, i: nat, j: nat, pc: Pc)
    requires j <= |steps|
  {
    || (Telling(cfg, pc, node) && HeardBy(steps, t, cfg.listeners - pc.todo, node, i, j))
    || (AllHeard(pc, node) && HeardBy(steps, t, cfg.listeners, node, i, j))
    || (Fails(pc, node) && Refused(steps, t, cfg.listeners, node, i, j))
  }

  predicate AllHeard(pc: Pc, node: NodeInfo) {
    pc == RegOut(node.nodeID, OK) || pc == Done(OK)
  }

  predicate Fails(pc: Pc, node: NodeInfo) {
    pc == RegFail(node.nodeID) || pc == RegUndo(node.nodeID) || pc == RegOut(node.nodeID, Unknown)
        || pc == Done(Unknown)
  }

  /** How one step of the call tells a listener, if it does. */
  ghost predicate Tells(cfg: Config, pc: Pc, e: Effect, pc': Pc, node: NodeInfo)
    requires Telling(cfg, pc, node)
  {
    || (Telling(cfg, pc', node) && pc'.todo == pc.todo)
    || (e.Answered? && e.l in pc.todo && e == Answered(e.l, node, true)
        && pc' == RegNext(node.nodeID, node.endpoint, pc.todo - {e.l}))
    || (e.Added? && e.node == node && pc' == RegNext(node.nodeID, node.endpoint, pc.todo - {MasterListener}))
    || (e.Answered? && e.l in pc.todo && e == Answered(e.l, node, false) && Fails(pc', node))
    || (pc.todo == {} && e == Quiet && AllHeard(pc', node))
  }

  lemma TakenTells(cfg: Config, pc: Pc, node: NodeInfo)
    requires Wants(cfg, pc).Some? && Telling(cfg, pc, node)
    ensures Tells(cfg, pc, Quiet, Taken(cfg, pc), node)
  {
  }

  lemma MoveTells(cfg: Config, pc: Pc, e: Effect, pc': Pc, node: NodeInfo)
    requires RegistryMoves(cfg, pc, e, pc') && Telling(cfg, pc, node)
    ensures Tells(cfg, pc, e, pc', node)
  {
  }

  lemma StepTells(cfg: Config, pc: Pc, e: Effect, pc': Pc, node: NodeInfo)
    requires Moves(cfg, pc, e, pc') && Telling(cfg, pc, node)
    ensures Tells(cfg, pc, e, pc', node)
  {
    if Wants(cfg, pc).Some? {
      TakenTells(cfg, pc, node);
    } else {
      MoveTells(cfg, pc, e, pc', node);
    }
  }

  lemma MoveEnds(cfg: Config, pc: Pc, e: Effect, pc': Pc, node: NodeInfo)
    requires RegistryMoves(cfg, pc, e, pc')
    ensures AllHeard(pc, node) ==> AllHeard(pc', node)
    ensures Fails(pc, node) ==> Fails(pc', node)
  {
  }

  lemma StepEnds(cfg: Config, pc: Pc, e: Effect, pc': Pc, node: NodeInfo)
    requires Moves(cfg, pc, e, pc') && (AllHeard(pc, node) || Fails(pc, node))
    ensures AllHeard(pc, node) ==> AllHeard(pc', node)
    ensures Fails(pc, node) ==> Fails(pc', node)
  {
    if pc.Done? {
      DoneStays(cfg, pc.code, e, pc');
    } else if Wants(cfg, pc).None? {
      MoveEnds(cfg, pc, e, pc', node);
    }
  }

  lemma HeardLater(steps: seq<Step>, t: Tid, l: Listener, node: NodeInfo, i: nat, j: nat)
    requires j < |steps| && Heard(steps, t, l, node, i, j)
    ensures Heard(steps, t, l, node, i, j + 1)
  {
  }

  lemma RefusedLater(steps: seq<Step>, t: Tid, ls: set<Listener>, node: NodeInfo, i: nat, j: nat)
    requires j < |steps| && Refused(steps, t, ls, node, i, j)
    ensures Refused(steps, t, ls, node, i, j + 1)
  {
  }

  lemma HeardByLater(steps: seq<Step>, t: Tid, ls: set<Listener>, node: NodeInfo, i: nat, j: nat)
    requires j < |steps| && HeardBy(steps, t, ls, node, i, j)
    ensures HeardBy(steps, t, ls, node, i, j + 1)
  {
    forall l | l in ls ensures Heard(steps, t, l, node, i, j + 1) {
      HeardLater(steps, t, l, node, i, j);
    }
  }

  lemma HearingStays(cfg: Config, steps: seq<Step>, t: Tid, node: NodeInfo, i: nat, j: nat, pc: Pc)
    requires j < |steps| && Hearing(cfg, steps, t, node, i, j, pc)
    ensures Hearing(cfg, steps, t, node, i, j + 1, pc)
  {
    if Telling(cfg, pc, node) {
      HeardByLater(steps, t, cfg.listeners - pc.todo, node, i, j);
    } else if AllHeard(pc, node) {
      HeardByLater(steps, t, cfg.listeners, node, i, j);
    } else {
      RefusedLater(steps, t, cfg.listeners, node, i, j);
    }
  }

  lemma OneMoreHears(steps: seq<Step>, t: Tid, ls: set<Listener>, todo: set<Listener>, node: NodeInfo, i: nat, j: nat,
                     l: Listener)
    requires i <= j < |steps| && Acts(steps[j], t) && Accepts(steps[j].e, l, node)
    requires HeardBy(steps, t, ls - todo, node, i, j)
    ensures HeardBy(steps, t, ls - (todo - {l}), node, i, j + 1)
  {
    assert Heard(steps, t, l, node, i, j + 1);
    HeardByLater(steps, t, ls - todo, node, i, j);
    forall o | o in ls - (todo - {l}) ensures Heard(steps, t, o, node, i, j + 1) {
      assert o == l || o in ls - todo;
    }
  }

  lemma OneRefuses(steps: seq<Step>, t: Tid, ls: set<Listener>, node: NodeInfo, i: nat, j: nat, l: Listener)
    requires i <= j < |steps| && Acts(steps[j], t) && steps[j].e == Answered(l, node, false) && l in ls
    ensures Refused(steps, t, ls, node, i, j + 1)
  {
  }

  /** A step of the call while listeners have still to be told. */
  lemma TellingNext(cfg: Config, steps: seq<Step>, t: Tid, node: NodeInfo, i: nat, j: nat, pc: Pc, pc': Pc)
    requires i <= j < |steps| && Acts(steps[j], t) && Telling(cfg, pc, node)
    requires HeardBy(steps, t, cfg.listeners - pc.todo, node, i, j) && Tells(cfg, pc, steps[j].e, pc', node)
    ensures Hearing(cfg, steps, t, node, i, j + 1, pc')
  {
    var e := steps[j].e;
    HeardByLater(steps, t, cfg.listeners - pc.todo, node, i, j);
    if Telling(cfg, pc', node) && pc'.todo == pc.todo {
    } else if e.Answered? && e.ok {
      OneMoreHears(steps, t, cfg.listeners, pc.todo, node, i, j, e.l);
    } else if e.Added? {
      OneMoreHears(steps, t, cfg.listeners, pc.todo, node, i, j, MasterListener);
    } else if e.Answered? {
      OneRefuses(steps, t, cfg.listeners, node, i, j, e.l);
    } else {
      assert cfg.listeners - pc.todo == cfg.listeners;
    }
  }

  lemma HearingNext(cfg: Config, steps: seq<Step>, t: Tid, node: NodeInfo, i: nat, j: nat, pc: Pc, pc': Pc)
    requires i <= j < |steps| && Hearing(cfg, steps, t, node, i, j, pc) && Acts(steps[j], t)
    requires Moves(cfg, pc, steps[j].e, pc')
    ensures Hearing(cfg, steps, t, node, i, j + 1, pc')
  {
    if Telling(cfg, pc, node) {
      StepTells(cfg, pc, steps[j].e, pc', node);
      TellingNext(cfg, steps, t, node, i, j, pc, pc');
    } else {
      StepEnds(cfg, pc, steps[j].e, pc', node);
      if AllHeard(pc, node) {
        HeardByLater(steps, t, cfg.listeners, node, i, j);
      } else {
        RefusedLater(steps, t, cfg.listeners, node, i, j);
      }
    }
  }

  lemma HearingStep(cfg: Config, s: State, steps: seq<Step>, s': State, t: Tid, node: NodeInfo, i: nat, j: nat)
    requires i <= j < |steps| && Next(cfg, s, steps[j], s') && t in s.threads
    requires Hearing(cfg, steps, t, node, i, j, s.threads[t])
    ensures t in s'.threads && Hearing(cfg, steps, t, node, i, j + 1, s'.threads[t])
  {
    ActsOrStays(cfg, s, steps[j], s', t);
    if Acts(steps[j], t) {
      HearingNext(cfg, steps, t, node, i, j, s.threads[t], s'.threads[t]);
    } else {
      HearingStays(cfg, steps, t, node, i, j, s.threads[t]);
    }
  }

  lemma {:induction false} HearingFrom(cfg: Config, states: seq<State>, steps: seq<Step>, t: Tid, node: NodeInfo,
                                       i: nat,
                                       j: nat)
    requires IsRun(cfg, states, steps) && i <= j < |states| && t in states[i].threads
    requires states[i].threads[t] == RegNext(node.nodeID, node.endpoint, cfg.listeners)
    ensures t in states[j].threads && Hearing(cfg, steps, t, node, i, j, states[j].threads[t])
    decreases j
  {
    if i < j {
      HearingFrom(cfg, states, steps, t, node, i, j - 1);
      HearingStep(cfg, states[j - 1], steps, states[j], t, node, i, j - 1);
    } else {
      assert cfg.listeners - states[i].threads[t].todo == {};
    }
  }

  /** Registering a node that is not known, or is known under another endpoint, in any run: when the call has
      ended, it was answered OK and every listener accepted, or it was refused by one of them. */
  lemma AnnouncedToAll(cfg: Config, states: seq<State>, steps: seq<Step>, t: Tid, id: string, endpoint: string, i: nat,
                       j: nat)
    requires IsRun(cfg, states, steps) && i < j < |states|
    requires Acts(steps[i], t) && t in states[i].threads && states[i].threads[t] == RegWrite(id, endpoint)
    requires !(id in states[i].data.clients && states[i].data.clients[id].endpoint == endpoint)
    requires t in states[j].threads && states[j].threads[t].Done?
    ensures states[j].threads[t].code == OK || states[j].threads[t].code == Unknown
    ensures states[j].threads[t].code == OK ==>
              HeardBy(steps, t, cfg.listeners, NodeInfo(id, endpoint), i + 1, j)
    ensures states[j].threads[t].code == Unknown ==>
              Refused(steps, t, cfg.listeners, NodeInfo(id, endpoint), i + 1, j)
  {
    WriteStep(cfg, states[i], steps[i], states[i + 1], t, id, endpoint);
    HearingFrom(cfg, states, steps, t, NodeInfo(id, endpoint), i + 1, j);
  }
}
